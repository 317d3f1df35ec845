/**
 Carrying out a logical plan: every planned file is checked first, then each is
 checked once more and unlinked, while other processes may change the directory
 between any two of these steps.
 */
module LogicalDeletion {
  import opened Ordered
  import opened RotationPlan
  import opened LogicalRotation

  /** A file name, as stamp and kind. */
  datatype FileName = FileName(stamp: int, kind: Kind)

  datatype FileInfo = FileInfo(regular: bool, device: nat, inode: nat, size: nat)

  type Files = map<FileName, FileInfo>

  /** What others do between two steps: put a file in place of a name, or take it away. */
  type Change = map<FileName, Option<FileInfo>>

  datatype Error = DirectoryChanged | BackupChanged | OperatingSystem

  datatype Outcome = Removed(count: nat, reclaimed: nat) | Failed(error: Error)

  function NameOf(r: Record): FileName {
    FileName(r.stamp, r.kind)
  }

  function Apply(files: Files, change: Change): (after: Files)
    ensures forall n :: n in after <==> if n in change then change[n].Some? else n in files
    ensures forall n :: n in after ==>
      after[n] == if n in change then change[n].value else files[n]
  {
    map n | n in files.Keys + change.Keys && (n in change ==> change[n].Some?) ::
      if n in change then change[n].value else files[n]
  }

  function ChangeAt(outside: seq<Change>, i: nat): Change {
    if i < |outside| then outside[i] else map[]
  }

  /** The directory after the first n outside changes, had nobody unlinked anything. */
  ghost function World(files: Files, outside: seq<Change>, n: nat): Files {
    if n == 0 then files else Apply(World(files, outside, n - 1), ChangeAt(outside, n - 1))
  }

  predicate Intact(files: Files, r: Record) {
    && NameOf(r) in files
    && var info := files[NameOf(r)];
       info.regular && info.device == r.device && info.inode == r.inode && info.size == r.size
  }

  /** At r's name there is no file, or one that is not the file listed. */
  predicate Replaced(files: Files, r: Record) {
    NameOf(r) !in files ||
    var now := files[NameOf(r)];
    !now.regular || now.device != r.device || now.inode != r.inode || now.size != r.size
  }

  /** How a check fails: a missing file is an error of the operating system. */
  function Surprise(files: Files, r: Record): Error {
    if NameOf(r) in files then BackupChanged else OperatingSystem
  }

  ghost predicate DistinctNames(plan: seq<Record>) {
    forall i, j :: 0 <= i < j < |plan| ==> NameOf(plan[i]) != NameOf(plan[j])
  }

  ghost predicate FirstPassClean(files: Files, outside: seq<Change>, plan: seq<Record>) {
    forall i :: 0 <= i < |plan| ==> Intact(World(files, outside, i + 1), plan[i])
  }

  /** The k-th record is intact at its second check. */
  ghost predicate StillIntact(files: Files, outside: seq<Change>, plan: seq<Record>, k: int)
    requires 0 <= k < |plan|
  {
    Intact(World(files, outside, |plan| + k + 1), plan[k])
  }

  /** How many records in a row, from k on, are intact at their second check. */
  ghost function LeadingIntact(files: Files, outside: seq<Change>, plan: seq<Record>, k: nat): (n: nat)
    requires k <= |plan|
    ensures k <= n <= |plan|
    decreases |plan| - k
  {
    if k < |plan| && StillIntact(files, outside, plan, k) then LeadingIntact(files, outside, plan, k + 1) else k
  }

  /** How many planned files a call unlinks. */
  ghost function Unlinked(files: Files, outside: seq<Change>, plan: seq<Record>): (n: nat)
    ensures n <= |plan|
  {
    if FirstPassClean(files, outside, plan) then LeadingIntact(files, outside, plan, 0) else 0
  }

  /** A log with the first k planned names appended in order. */
  ghost function Logged(log: seq<FileName>, plan: seq<Record>, k: nat): seq<FileName>
    requires k <= |plan|
  {
    if k == 0 then log else Logged(log, plan, k - 1) + [NameOf(plan[k - 1])]
  }

  /** The bytes of the first k planned files. */
  ghost function TotalSize(plan: seq<Record>, k: nat): nat
    requires k <= |plan|
  {
    if k == 0 then 0 else TotalSize(plan, k - 1) + plan[k - 1].size
  }

  ghost predicate Processed(plan: seq<Record>, k: int, n: FileName)
    requires k <= |plan|
  {
    exists i :: 0 <= i < k && NameOf(plan[i]) == n
  }

  ghost predicate SameAt(a: Files, b: Files, n: FileName) {
    (n in a <==> n in b) && (n in a ==> a[n] == b[n])
  }

  /** Apart from the first k planned names, a is what b is. */
  ghost predicate AgreeExcept(a: Files, b: Files, plan: seq<Record>, k: int)
    requires k <= |plan|
  {
    forall n :: !Processed(plan, k, n) ==> SameAt(a, b, n)
  }

  lemma AgreementSurvivesChange(a: Files, b: Files, plan: seq<Record>, k: nat, change: Change)
    requires k <= |plan| && AgreeExcept(a, b, plan, k)
    ensures AgreeExcept(Apply(a, change), Apply(b, change), plan, k)
  {
    forall n | !Processed(plan, k, n) ensures SameAt(Apply(a, change), Apply(b, change), n) {
      assert SameAt(a, b, n);
    }
  }

  lemma AgreementSurvivesUnlink(a: Files, b: Files, plan: seq<Record>, k: nat)
    requires k < |plan| && AgreeExcept(a, b, plan, k)
    ensures AgreeExcept(a - {NameOf(plan[k])}, b, plan, k + 1)
  {
    forall n | !Processed(plan, k + 1, n) ensures SameAt(a - {NameOf(plan[k])}, b, n) {
      assert SameAt(a, b, n);
    }
  }

  lemma WiderAgreement(a: Files, b: Files, plan: seq<Record>, k: nat)
    requires k <= |plan| && AgreeExcept(a, b, plan, k)
    ensures AgreeExcept(a, b, plan, |plan|)
  {
    assert forall n :: Processed(plan, k, n) ==> Processed(plan, |plan|, n);
  }

  /** One more outside change and the k-th check: what is seen is what the undisturbed
      directory shows, and unlinking keeps the rest in step. */
  lemma CheckSeesTheWorld(files: Files, start: Files, outside: seq<Change>, plan: seq<Record>, k: nat)
    requires k < |plan| && DistinctNames(plan)
    requires AgreeExcept(files, World(start, outside, |plan| + k), plan, k)
    ensures var after := Apply(files, ChangeAt(outside, |plan| + k));
            && (Intact(after, plan[k]) <==> StillIntact(start, outside, plan, k))
            && AgreeExcept(after, World(start, outside, |plan| + k + 1), plan, |plan|)
            && AgreeExcept(after - {NameOf(plan[k])}, World(start, outside, |plan| + k + 1), plan, k + 1)
  {
    var change := ChangeAt(outside, |plan| + k);
    var after, world := Apply(files, change), World(start, outside, |plan| + k + 1);
    AgreementSurvivesChange(files, World(start, outside, |plan| + k), plan, k, change);
    AgreementSurvivesUnlink(after, world, plan, k);
    WiderAgreement(after, world, plan, k);
    assert !Processed(plan, k, NameOf(plan[k]));
    assert SameAt(after, world, NameOf(plan[k]));
  }

  /** The second pass as a function: the directory it leaves and how many files it unlinked. */
  ghost function SecondPass(files: Files, outside: seq<Change>, plan: seq<Record>, k: nat): (r: (Files, nat))
    requires k <= |plan|
    ensures k <= r.1 <= |plan|
    decreases |plan| - k
  {
    if k == |plan| then (files, k)
    else
      var after := Apply(files, ChangeAt(outside, |plan| + k));
      if Intact(after, plan[k]) then SecondPass(after - {NameOf(plan[k])}, outside, plan, k + 1) else (after, k)
  }

  /** It unlinks up to the first record that changed, and nothing else. */
  lemma {:induction false} SecondPassMeaning(
    files: Files, start: Files, outside: seq<Change>, plan: seq<Record>, k: nat)
    returns (steps: nat)
    requires k <= |plan| && DistinctNames(plan)
    requires AgreeExcept(files, World(start, outside, |plan| + k), plan, k)
    ensures var r := SecondPass(files, outside, plan, k);
            && r.1 == LeadingIntact(start, outside, plan, k)
            && AgreeExcept(r.0, World(start, outside, steps), plan, |plan|)
    decreases |plan| - k
  {
    if k == |plan| {
      steps := |plan| + k;
    } else {
      CheckSeesTheWorld(files, start, outside, plan, k);
      var after := Apply(files, ChangeAt(outside, |plan| + k));
      if Intact(after, plan[k]) {
        steps := SecondPassMeaning(after - {NameOf(plan[k])}, start, outside, plan, k + 1);
      } else {
        steps := |plan| + k + 1;
      }
    }
  }

  /** The i-th file is missing or replaced after n outside changes, at one of its two checks. */
  ghost predicate SurprisedAt(files: Files, outside: seq<Change>, plan: seq<Record>, n: nat, i: nat, error: Error)
    requires i < |plan|
  {
    && (n == i + 1 || n == |plan| + i + 1)
    && Replaced(World(files, outside, n), plan[i])
    && (error == OperatingSystem <==> NameOf(plan[i]) !in World(files, outside, n))
    && (error == BackupChanged <==> NameOf(plan[i]) in World(files, outside, n))
  }

  ghost predicate Surprised(files: Files, outside: seq<Change>, plan: seq<Record>, error: Error) {
    exists n: nat, i: nat :: i < |plan| && SurprisedAt(files, outside, plan, n, i, error)
  }

  lemma CheckSurprises(files: Files, start: Files, outside: seq<Change>, plan: seq<Record>, k: nat)
    requires k < |plan| && DistinctNames(plan)
    requires AgreeExcept(files, World(start, outside, |plan| + k), plan, k)
    requires !Intact(Apply(files, ChangeAt(outside, |plan| + k)), plan[k])
    ensures var after := Apply(files, ChangeAt(outside, |plan| + k));
            SurprisedAt(start, outside, plan, |plan| + k + 1, k, Surprise(after, plan[k]))
  {
    assert !Processed(plan, k, NameOf(plan[k]));
    assert SameAt(files, World(start, outside, |plan| + k), NameOf(plan[k]));
  }

  /** The second pass stops only where it finds a file missing or replaced. */
  lemma {:induction false} SecondPassSurprise(
    files: Files, start: Files, outside: seq<Change>, plan: seq<Record>, k: nat)
    requires k <= |plan| && DistinctNames(plan)
    requires AgreeExcept(files, World(start, outside, |plan| + k), plan, k)
    ensures var r := SecondPass(files, outside, plan, k);
            r.1 < |plan| ==> Surprised(start, outside, plan, Surprise(r.0, plan[r.1]))
    decreases |plan| - k
  {
    if k < |plan| {
      var after := Apply(files, ChangeAt(outside, |plan| + k));
      if Intact(after, plan[k]) {
        CheckSeesTheWorld(files, start, outside, plan, k);
        SecondPassSurprise(after - {NameOf(plan[k])}, start, outside, plan, k + 1);
      } else {
        CheckSurprises(files, start, outside, plan, k);
      }
    }
  }

  lemma SecondPassFromStart(start: Files, outside: seq<Change>, plan: seq<Record>) returns (steps: nat)
    requires DistinctNames(plan) && FirstPassClean(start, outside, plan)
    ensures var r := SecondPass(World(start, outside, |plan|), outside, plan, 0);
            && r.1 == Unlinked(start, outside, plan)
            && AgreeExcept(r.0, World(start, outside, steps), plan, |plan|)
            && (r.1 < |plan| ==> Surprised(start, outside, plan, Surprise(r.0, plan[r.1])))
  {
    assert AgreeExcept(World(start, outside, |plan|), World(start, outside, |plan|), plan, 0);
    steps := SecondPassMeaning(World(start, outside, |plan|), start, outside, plan, 0);
    SecondPassSurprise(World(start, outside, |plan|), start, outside, plan, 0);
  }

  lemma SparedInLog(log: seq<FileName>, files: Files, outside: seq<Change>, plan: seq<Record>)
    ensures Spares(files, outside, plan, |Logged(log, plan, Unlinked(files, outside, plan))| - |log|)
  {
    ReplacedFilesStay(files, outside, plan);
    LoggedGrows(log, plan, Unlinked(files, outside, plan));
  }

  lemma {:induction false} LoggedGrows(log: seq<FileName>, plan: seq<Record>, k: nat)
    requires k <= |plan|
    ensures |Logged(log, plan, k)| == |log| + k
  {
    if k > 0 { LoggedGrows(log, plan, k - 1); }
  }

  lemma {:induction false} LeadingStops(files: Files, outside: seq<Change>, plan: seq<Record>, j: nat, k: nat)
    requires j <= k < |plan| && !StillIntact(files, outside, plan, k)
    ensures LeadingIntact(files, outside, plan, j) <= k
    decreases k - j
  {
    if j < k && StillIntact(files, outside, plan, j) { LeadingStops(files, outside, plan, j + 1, k); }
  }

  /** A file missing or replaced at its first check keeps every planned file; one that is so at
      its second check keeps itself and all after it. */
  ghost predicate Spares(files: Files, outside: seq<Change>, plan: seq<Record>, unlinked: int) {
    forall i :: 0 <= i < |plan| ==>
      && (Replaced(World(files, outside, i + 1), plan[i]) ==> unlinked == 0)
      && (Replaced(World(files, outside, |plan| + i + 1), plan[i]) ==> unlinked <= i)
  }

  lemma ReplacedFilesStay(files: Files, outside: seq<Change>, plan: seq<Record>)
    ensures Spares(files, outside, plan, Unlinked(files, outside, plan))
  {
    forall i | 0 <= i < |plan|
      ensures Replaced(World(files, outside, i + 1), plan[i]) ==> Unlinked(files, outside, plan) == 0
      ensures Replaced(World(files, outside, |plan| + i + 1), plan[i]) ==> Unlinked(files, outside, plan) <= i
    {
      if Replaced(World(files, outside, |plan| + i + 1), plan[i]) { LeadingStops(files, outside, plan, 0, i); }
    }
  }

  lemma {:induction false} LeadingGoesOn(files: Files, outside: seq<Change>, plan: seq<Record>, j: nat)
    requires j <= |plan| && forall k :: j <= k < |plan| ==> StillIntact(files, outside, plan, k)
    ensures LeadingIntact(files, outside, plan, j) == |plan|
    decreases |plan| - j
  {
    if j < |plan| { LeadingGoesOn(files, outside, plan, j + 1); }
  }

  /** The whole plan goes exactly when no planned file is missing or replaced at either check. */
  lemma WholePlanGoesExactly(files: Files, outside: seq<Change>, plan: seq<Record>)
    ensures FirstPassClean(files, outside, plan) && Unlinked(files, outside, plan) == |plan| <==>
              forall i :: 0 <= i < |plan| ==>
                && !Replaced(World(files, outside, i + 1), plan[i])
                && !Replaced(World(files, outside, |plan| + i + 1), plan[i])
  {
    ReplacedFilesStay(files, outside, plan);
    if forall i :: 0 <= i < |plan| ==>
         && !Replaced(World(files, outside, i + 1), plan[i])
         && !Replaced(World(files, outside, |plan| + i + 1), plan[i])
    {
      forall i | 0 <= i < |plan| ensures Intact(World(files, outside, i + 1), plan[i]) {
        assert !Replaced(World(files, outside, i + 1), plan[i]);
      }
      forall k | 0 <= k < |plan| ensures StillIntact(files, outside, plan, k) {
        assert !Replaced(World(files, outside, |plan| + k + 1), plan[k]);
      }
      LeadingGoesOn(files, outside, plan, 0);
    }
  }

  class BackupDirectory {
    var files: Files
    var unlinked: seq<FileName>

    constructor (files: Files)
      ensures this.files == files && unlinked == []
    {
      this.files := files;
      unlinked := [];
    }

    /** One check and, if the file is still the planned one, its unlinking. */
    method DeleteOne(r: Record, change: Change) returns (ok: bool, error: Error)
      modifies this
      ensures ok <==> Intact(Apply(old(files), change), r)
      ensures files == if ok then Apply(old(files), change) - {NameOf(r)} else Apply(old(files), change)
      ensures unlinked == if ok then old(unlinked) + [NameOf(r)] else old(unlinked)
      ensures error == Surprise(Apply(old(files), change), r)
    {
      files := Apply(files, change);
      ok := Intact(files, r);
      error := Surprise(files, r);
      if ok {
        files := files - {NameOf(r)};
        unlinked := unlinked + [NameOf(r)];
      }
    }

    /** The first pass: every planned file is checked, and nothing is deleted. */
    method CheckPlan(plan: seq<Record>, outside: seq<Change>) returns (clean: bool, error: Error, ghost steps: nat)
      modifies this
      ensures unlinked == old(unlinked) && files == World(old(files), outside, steps)
      ensures clean <==> FirstPassClean(old(files), outside, plan)
      ensures clean ==> steps == |plan|
      ensures !clean ==> Surprised(old(files), outside, plan, error)
    {
      ghost var start := files;
      var i := 0;
      while i < |plan|
        invariant 0 <= i <= |plan|
        invariant files == World(start, outside, i) && unlinked == old(unlinked)
        invariant forall j :: 0 <= j < i ==> Intact(World(start, outside, j + 1), plan[j])
      {
        files := Apply(files, ChangeAt(outside, i));
        if !Intact(files, plan[i]) {
          assert SurprisedAt(start, outside, plan, i + 1, i, Surprise(files, plan[i]));
          return false, Surprise(files, plan[i]), i + 1;
        }
        i := i + 1;
      }
      return true, OperatingSystem, |plan|;
    }

    /** The second pass: check and unlink, one file after the other, up to the first surprise. */
    method DeletePlan(plan: seq<Record>, outside: seq<Change>) returns (r: Outcome)
      modifies this
      ensures files == SecondPass(old(files), outside, plan, 0).0
      ensures unlinked == Logged(old(unlinked), plan, SecondPass(old(files), outside, plan, 0).1)
      ensures r.Removed? <==> SecondPass(old(files), outside, plan, 0).1 == |plan|
      ensures r.Removed? ==> r.count == |plan| && r.reclaimed == TotalSize(plan, |plan|)
      ensures r.Failed? ==>
                var stopped := SecondPass(old(files), outside, plan, 0);
                r.error == Surprise(stopped.0, plan[stopped.1])
    {
      var k, reclaimed := 0, 0;
      while k < |plan|
        invariant 0 <= k <= |plan|
        invariant SecondPass(files, outside, plan, k) == SecondPass(old(files), outside, plan, 0)
        invariant unlinked == Logged(old(unlinked), plan, k)
        invariant reclaimed == TotalSize(plan, k)
      {
        var ok, error := DeleteOne(plan[k], ChangeAt(outside, |plan| + k));
        if !ok {
          return Failed(error);
        }
        reclaimed := reclaimed + plan[k].size;
        k := k + 1;
      }
      r := Removed(k, reclaimed);
    }

    /**
     `sameDirectory` is the identity test of the opened directory against its path. The
     names unlinked are always the first Unlinked(...) of the plan; success means the
     whole plan went and is reported with its byte sum. All other names are as the
     outside changes left them. A file replaced before its first check keeps every file,
     and one replaced before its second check keeps itself and those after it.
     */
    method RemoveLogical(sameDirectory: bool, plan: seq<Record>, outside: seq<Change>)
      returns (r: Outcome, ghost steps: nat)
      requires DistinctNames(plan)
      modifies this
      ensures var n := if sameDirectory then Unlinked(old(files), outside, plan) else 0;
              && unlinked == Logged(old(unlinked), plan, n)
              && (r.Removed? <==> sameDirectory && n == |plan|
                                  && FirstPassClean(old(files), outside, plan))
      ensures r.Removed? ==> r.count == |plan| && r.reclaimed == TotalSize(plan, |plan|)
      ensures r == Failed(DirectoryChanged) <==> !sameDirectory
      ensures sameDirectory && r.Failed? ==> Surprised(old(files), outside, plan, r.error)
      ensures Spares(old(files), outside, plan, |unlinked| - |old(unlinked)|)
      ensures AgreeExcept(files, World(old(files), outside, steps), plan, |plan|)
    {
      if !sameDirectory {
        return Failed(DirectoryChanged), 0;
      }
      ghost var start := files;
      var clean, error, checked := CheckPlan(plan, outside);
      SparedInLog(unlinked, start, outside, plan);
      if !clean {
        return Failed(error), checked;
      }
      steps := SecondPassFromStart(start, outside, plan);
      r := DeletePlan(plan, outside);
    }
  }

  // ---------- when is a changed plan left untouched? ----------

  /** Some record is not what was planned when the first pass ends. */
  ghost predicate ChangedByFirstPass(files: Files, outside: seq<Change>, plan: seq<Record>) {
    exists i :: 0 <= i < |plan| && !Intact(World(files, outside, |plan|), plan[i])
  }

  /** A file once changed does not become the planned one again. */
  ghost predicate ChangesStay(files: Files, outside: seq<Change>, plan: seq<Record>) {
    forall i, m, n :: 0 <= i < |plan| && 0 <= m <= n && !Intact(World(files, outside, m), plan[i]) ==>
      !Intact(World(files, outside, n), plan[i])
  }

  ghost predicate UntouchedWhenChanged(plan: seq<Record>) {
    forall files, outside :: ChangesStay(files, outside, plan) && ChangedByFirstPass(files, outside, plan) ==>
      Unlinked(files, outside, plan) == 0
  }

  /** Up to two planned files, the double check deletes nothing of a plan that changed. */
  lemma ShortPlansAreSafe(plan: seq<Record>)
    requires |plan| <= 2
    ensures UntouchedWhenChanged(plan)
  {
    forall files, outside | ChangesStay(files, outside, plan) && ChangedByFirstPass(files, outside, plan)
      ensures Unlinked(files, outside, plan) == 0
    {
      var i :| 0 <= i < |plan| && !Intact(World(files, outside, |plan|), plan[i]);
      if i == 0 {
        assert !StillIntact(files, outside, plan, 0);
      } else {
        assert !Intact(World(files, outside, i + 1), plan[i]);
      }
    }
  }

  ghost function Inventory(plan: seq<Record>): (files: Files)
    ensures DistinctNames(plan) ==> forall i :: 0 <= i < |plan| ==> Intact(files, plan[i])
  {
    if plan == [] then map[]
    else
      var last := plan[|plan| - 1];
      var front := plan[..|plan| - 1];
      assert DistinctNames(plan) ==> DistinctNames(front);
      assert forall i :: 0 <= i < |front| ==> front[i] == plan[i];
      Inventory(front)[NameOf(last) := FileInfo(true, last.device, last.inode, last.size)]
  }

  lemma {:induction false} WorldSettles(files: Files, outside: seq<Change>, n: nat)
    requires n >= |outside|
    ensures World(files, outside, n) == World(files, outside, |outside|)
  {
    if n > |outside| {
      WorldSettles(files, outside, n - 1);
      assert Apply(World(files, outside, n - 1), map[]) == World(files, outside, n - 1);
    }
  }

  /** With three files, one that vanishes just after its own check goes unnoticed until
      the file before it has been deleted. */
  lemma LongPlansLoseTheirFirstFile(plan: seq<Record>) returns (files: Files, outside: seq<Change>)
    requires |plan| >= 3 && DistinctNames(plan)
    ensures ChangesStay(files, outside, plan) && ChangedByFirstPass(files, outside, plan)
    ensures Unlinked(files, outside, plan) == 1
  {
    files := Inventory(plan);
    outside := [map[], map[], map[NameOf(plan[1]) := None]];
    var gone := Apply(files, outside[2]);
    assert World(files, outside, 1) == files;
    assert World(files, outside, 2) == files;
    assert World(files, outside, 3) == gone;
    forall n: nat ensures World(files, outside, n) == if n < 3 then files else gone {
      if n >= 3 { WorldSettles(files, outside, n); }
    }
    forall i | 0 <= i < |plan| ensures Intact(gone, plan[i]) <==> i != 1 {
      assert i != 1 ==> NameOf(plan[i]) != NameOf(plan[1]);
    }
    assert FirstPassClean(files, outside, plan);
    assert !Intact(World(files, outside, |plan|), plan[1]);
    assert LeadingIntact(files, outside, plan, 0) == LeadingIntact(files, outside, plan, 1) == 1;
  }

  /** The promise that a changed plan is left untouched holds for plans of at most two files. */
  lemma UntouchedExactlyForShortPlans(plan: seq<Record>)
    requires DistinctNames(plan)
    ensures UntouchedWhenChanged(plan) <==> |plan| <= 2
  {
    if |plan| <= 2 {
      ShortPlansAreSafe(plan);
    } else {
      var files, outside := LongPlansLoseTheirFirstFile(plan);
    }
  }

  // ---------- what a deletion frees ----------

  /** The bytes of all files in a directory. */
  ghost function Bytes(files: Files): nat
    decreases |files|
  {
    if files == map[] then 0
    else
      var n := Pick(files.Keys);
      files[n].size + Bytes(files - {n})
  }

  lemma {:induction false} BytesWithout(files: Files, n: FileName)
    requires n in files
    ensures Bytes(files) == files[n].size + Bytes(files - {n})
    decreases |files|
  {
    var m := Pick(files.Keys);
    if m != n {
      BytesWithout(files - {m}, n);
      assert files - {m} - {n} == files - {n} - {m};
      BytesWithout(files - {n}, m);
    }
  }

  lemma QuietCheck(files: Files, plan: seq<Record>, k: nat)
    requires k < |plan|
    ensures SecondPass(files, [], plan, k) ==
            if Intact(files, plan[k]) then SecondPass(files - {NameOf(plan[k])}, [], plan, k + 1) else (files, k)
  {
    assert Apply(files, map[]) == files;
  }

  lemma {:induction false} QuietPassFrees(files: Files, plan: seq<Record>, k: nat)
    requires k <= |plan|
    ensures var r := SecondPass(files, [], plan, k);
            Bytes(files) == Bytes(r.0) + TotalSize(plan, r.1) - TotalSize(plan, k)
    decreases |plan| - k
  {
    if k < |plan| {
      QuietCheck(files, plan, k);
      if Intact(files, plan[k]) {
        BytesWithout(files, NameOf(plan[k]));
        QuietPassFrees(files - {NameOf(plan[k])}, plan, k + 1);
      }
    }
  }

  /** In a directory nobody else changes the bytes reported as reclaimed are those it held more. */
  lemma ReclaimedIsFreed(files: Files, plan: seq<Record>)
    ensures var r := SecondPass(files, [], plan, 0);
            Bytes(files) == Bytes(r.0) + TotalSize(plan, r.1)
  {
    QuietPassFrees(files, plan, 0);
  }

  // ---------- the plans it is given ----------

  lemma {:induction false} OneStampIsDistinct(records: seq<Record>, stamp: int)
    requires DistinctNames(records)
    ensures DistinctNames(OfStamp(records, stamp))
  {
    if records != [] {
      var front, last := records[..|records| - 1], records[|records| - 1];
      OneStampIsDistinct(front, stamp);
      forall i | 0 <= i < |OfStamp(front, stamp)| ensures NameOf(OfStamp(front, stamp)[i]) != NameOf(last) {
        OfStampExact(front, stamp, OfStamp(front, stamp)[i]);
        var j :| 0 <= j < |front| && front[j] == OfStamp(front, stamp)[i];
        assert records[j] == front[j];
      }
    }
  }

  /** A plan made from one directory listing names no file twice, as RemoveLogical expects. */
  lemma {:induction false} PlansAreDistinct(records: seq<Record>, stamps: seq<int>)
    requires DistinctNames(records) && Ascending(stamps)
    ensures DistinctNames(Concatenated(records, stamps))
  {
    if stamps != [] {
      var front, last := stamps[..|stamps| - 1], stamps[|stamps| - 1];
      PlansAreDistinct(records, front);
      OneStampIsDistinct(records, last);
      var a, b := Concatenated(records, front), OfStamp(records, last);
      forall i, j | 0 <= i < |a| && 0 <= j < |b| ensures NameOf(a[i]) != NameOf(b[j]) {
        InConcatenated(records, front, a[i]);
        OfStampExact(records, last, b[j]);
        assert a[i] in a && b[j] in b;
        var k :| 0 <= k < |front| && front[k] == a[i].stamp;
        assert stamps[k] < last;
      }
    }
  }
}
