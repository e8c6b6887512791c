/**
 From a directory listing to operations: files are grouped by journal id, each group sorted
 by phase and checked, and the groups sorted by ordinal
 (scripts/greater-realm-cutover-operation-journal.ts, recoveryOperationGroups). A listing
 comes in no particular order; this is why the model may hold operations in order.
 */
module JournalListing {
  import opened Wrappers
  import opened SnapshotRules
  import opened JournalRecords
  import opened JournalReaders
  import opened JournalLayout
  import opened JournalMachine
  import opened JournalSafety

  // ------------------------------------------------------------------------- sorting

  predicate NonDecreasing<T>(xs: seq<T>, key: T -> int) {
    forall i, j | 0 <= i < j < |xs| :: key(xs[i]) <= key(xs[j])
  }

  predicate Increasing<T>(xs: seq<T>, key: T -> int) {
    forall i, j | 0 <= i < j < |xs| :: key(xs[i]) < key(xs[j])
  }

  predicate NoRepeats<T(==)>(xs: seq<T>) {
    forall i, j | 0 <= i < j < |xs| :: xs[i] != xs[j]
  }

  ghost predicate SameElements<T(!new)>(xs: seq<T>, ys: seq<T>) {
    forall x :: x in xs <==> x in ys
  }

  /** Insertion behind everything that is not greater: `sort` is stable. */
  function Insert<T>(xs: seq<T>, x: T, key: T -> int): (ys: seq<T>)
    requires NonDecreasing(xs, key)
    ensures NonDecreasing(ys, key) && multiset(ys) == multiset(xs) + multiset{x}
  {
    if xs == [] || key(xs[|xs| - 1]) <= key(x) then
      xs + [x]
    else
      var init, last := xs[..|xs| - 1], xs[|xs| - 1];
      assert xs == init + [last];
      var ys := Insert(init, x, key);
      BagIsIn(ys, init, x);
      AppendGreatest(ys, last, key);
      ys + [last]
  }

  lemma AppendGreatest<T>(ys: seq<T>, last: T, key: T -> int)
    requires NonDecreasing(ys, key) && forall y | y in ys :: key(y) <= key(last)
    ensures NonDecreasing(ys + [last], key)
  {
  }

  lemma BagIsIn<T>(ys: seq<T>, xs: seq<T>, x: T)
    requires multiset(ys) == multiset(xs) + multiset{x}
    ensures forall y | y in ys :: y in xs || y == x
  {
    forall y | y in ys ensures y in xs || y == x {
      assert y in multiset(ys);
    }
  }

  /** `[...files].sort((l, r) => key(l) - key(r))` */
  method Sort<T>(xs: seq<T>, key: T -> int) returns (ys: seq<T>)
    ensures NonDecreasing(ys, key) && multiset(ys) == multiset(xs)
  {
    ys := [];
    for i := 0 to |xs|
      invariant NonDecreasing(ys, key) && multiset(ys) == multiset(xs[..i])
    {
      assert xs[..i + 1] == xs[..i] + [xs[i]];
      ys := Insert(ys, xs[i], key);
    }
    assert xs[..|xs|] == xs;
  }

  /** Strictly sorted lists of the same elements are the same list. */
  lemma {:induction false} SortedIsUnique<T(!new)>(xs: seq<T>, ys: seq<T>, key: T -> int)
    requires Increasing(xs, key) && Increasing(ys, key) && SameElements(xs, ys)
    ensures xs == ys
  {
    assert ys != [] ==> ys[0] in ys;
    if xs != [] {
      assert xs[0] in ys && ys[0] in xs;
      HeadsAgree(xs, ys, key);
      forall x ensures x in xs[1..] <==> x in ys[1..] {
        InTail(xs, key, x);
        InTail(ys, key, x);
      }
      SortedIsUnique(xs[1..], ys[1..], key);
      assert xs == [xs[0]] + xs[1..] && ys == [ys[0]] + ys[1..];
    }
  }

  lemma HeadsAgree<T(!new)>(xs: seq<T>, ys: seq<T>, key: T -> int)
    requires xs != [] && ys != [] && Increasing(xs, key) && Increasing(ys, key) && SameElements(xs, ys)
    ensures xs[0] == ys[0]
  {
    assert xs[0] in ys && ys[0] in xs;
    var j :| 0 <= j < |ys| && ys[j] == xs[0];
    var i :| 0 <= i < |xs| && xs[i] == ys[0];
    FirstIsLeast(ys, j, key);
    FirstIsLeast(xs, i, key);
  }

  lemma FirstIsLeast<T>(xs: seq<T>, i: nat, key: T -> int)
    requires i < |xs| && Increasing(xs, key)
    ensures key(xs[0]) <= key(xs[i]) && (key(xs[0]) == key(xs[i]) ==> i == 0)
  {
  }

  lemma InTail<T>(xs: seq<T>, key: T -> int, x: T)
    requires xs != [] && Increasing(xs, key)
    ensures x in xs[1..] <==> x in xs && x != xs[0]
  {
    if x in xs && x != xs[0] {
      var i :| 0 <= i < |xs| && xs[i] == x;
      assert xs[1..][i - 1] == x;
    }
    if x in xs[1..] {
      var i :| 0 <= i < |xs| - 1 && xs[1..][i] == x;
      assert key(xs[0]) < key(xs[i + 1]);
    }
  }

  /** A reordering has the same elements and repeats none that did not repeat. */
  lemma BagKeepsElements<T(!new)>(xs: seq<T>, ys: seq<T>)
    requires multiset(xs) == multiset(ys)
    ensures SameElements(xs, ys) && (NoRepeats(ys) ==> NoRepeats(xs))
  {
    forall x ensures x in xs <==> x in ys {
      assert x in multiset(xs) <==> x in multiset(ys);
    }
    if NoRepeats(ys) {
      forall i, j | 0 <= i < j < |xs| ensures xs[i] != xs[j] {
        if xs[i] == xs[j] {
          CountedTwice(xs, i, j);
          CountedOnce(ys, xs[i]);
        }
      }
    }
  }

  lemma CountedTwice<T>(xs: seq<T>, i: nat, j: nat)
    requires i < j < |xs| && xs[i] == xs[j]
    ensures multiset(xs)[xs[i]] >= 2
  {
    assert xs == xs[..i] + [xs[i]] + xs[i + 1..j] + [xs[j]] + xs[j + 1..];
  }

  lemma {:induction false} CountedOnce<T>(xs: seq<T>, x: T)
    requires NoRepeats(xs)
    ensures multiset(xs)[x] <= 1
  {
    if xs != [] {
      var init, last := xs[..|xs| - 1], xs[|xs| - 1];
      assert xs == init + [last];
      CountedOnce(init, x);
      assert last !in init && last !in multiset(init);
    }
  }

  lemma {:induction false} DistinctCount<T>(xs: seq<T>)
    requires NoRepeats(xs)
    ensures |set x | x in xs| == |xs|
  {
    if xs != [] {
      var init, last := xs[..|xs| - 1], xs[|xs| - 1];
      assert xs == init + [last];
      DistinctCount(init);
      assert (set x | x in xs) == (set x | x in init) + {last};
    }
  }

  // ------------------------------------------------------------------------ grouping

  function PhaseKey(record: OperationRecord): int { PhaseOrdinal(record.phase) }

  function IdOf(files: seq<OperationRecord>): nat { if files == [] then 0 else files[0].journalId }

  function OrdinalKey(files: seq<OperationRecord>): int { if files == [] then 0 else Current(files).plan.ordinal }

  /** The groups are valid operations, one a journal id, and hold exactly the listed files. */
  ghost predicate IsPartition(groups: seq<seq<OperationRecord>>, files: seq<OperationRecord>) {
    && (forall group | group in groups :: ValidOperationFiles(group))
    && (forall x, y | x in groups && y in groups && IdOf(x) == IdOf(y) :: x == y)
    && NoRepeats(groups)
    && forall record :: record in files <==> exists group :: group in groups && record in group
  }

  /** The files of one journal id, in listing order. */
  function OfId(files: seq<OperationRecord>, id: nat): (chosen: seq<OperationRecord>)
    ensures forall record :: record in chosen <==> record in files && record.journalId == id
    ensures NoRepeats(files) ==> NoRepeats(chosen)
  {
    if files == [] then [] else
    var init, last := files[..|files| - 1], files[|files| - 1];
    assert files == init + [last];
    assert NoRepeats(files) ==> NoRepeats(init) && last !in init;
    OfId(init, id) + if last.journalId == id then [last] else []
  }

  lemma OfIdSnoc(files: seq<OperationRecord>, last: OperationRecord, id: nat)
    ensures OfId(files + [last], id) == OfId(files, id) + if last.journalId == id then [last] else []
  {
    assert (files + [last])[..|files|] == files;
  }

  lemma FirstOfId(files: seq<OperationRecord>, id: nat)
    ensures OfId(files, id) != [] ==> exists record :: record in files && record.journalId == id
  {
    if OfId(files, id) != [] {
      assert OfId(files, id)[0] in files;
    }
  }

  lemma ValidIsIncreasing(files: seq<OperationRecord>)
    requires ValidOperationFiles(files)
    ensures Increasing(files, PhaseKey)
    ensures forall record | record in files :: record.journalId == IdOf(files)
  {
    hide ParsesOperation;
    forall i, j | 0 <= i < j < |files| ensures PhaseKey(files[i]) < PhaseKey(files[j]) {
      PhasesGrow(files, i, j);
    }
    forall record | record in files ensures record.journalId == IdOf(files) {
      var i :| 0 <= i < |files| && files[i] == record;
      assert FollowsOn(files, i);
    }
  }

  lemma {:induction false} PhasesGrow(files: seq<OperationRecord>, i: nat, j: nat)
    requires ValidOperationFiles(files) && i < j < |files|
    ensures PhaseKey(files[i]) < PhaseKey(files[j])
  {
    hide ParsesOperation;
    assert FollowsOn(files, j);
    if i + 1 < j { PhasesGrow(files, i, j - 1); }
  }

  /** In a partition, the group of an id holds exactly the files of that id. */
  lemma GroupHoldsId(groups: seq<seq<OperationRecord>>, files: seq<OperationRecord>, group: seq<OperationRecord>)
    requires IsPartition(groups, files) && group in groups
    ensures SameElements(group, OfId(files, IdOf(group)))
  {
    hide ValidOperationFiles, Increasing, NoRepeats;
    ValidIsIncreasing(group);
    forall record | record in files && record.journalId == IdOf(group) ensures record in group {
      var other :| other in groups && record in other;
      ValidIsIncreasing(other);
    }
  }

  lemma EveryFileHasGroup(groups: seq<seq<OperationRecord>>, files: seq<OperationRecord>, record: OperationRecord)
    returns (group: seq<OperationRecord>)
    requires IsPartition(groups, files) && record in files
    ensures group in groups && IdOf(group) == record.journalId
  {
    hide ValidOperationFiles, Increasing, NoRepeats;
    group :| group in groups && record in group;
    ValidIsIncreasing(group);
  }

  /** Sorted by phase, the files of an id are the group that any partition has for it. */
  lemma SortedPhases(groups: seq<seq<OperationRecord>>, files: seq<OperationRecord>, group: seq<OperationRecord>,
                     phases: seq<OperationRecord>)
    requires IsPartition(groups, files) && NoRepeats(files) && group in groups
    requires NonDecreasing(phases, PhaseKey) && multiset(phases) == multiset(OfId(files, IdOf(group)))
    ensures phases == group
  {
    GroupHoldsId(groups, files, group);
    ValidIsIncreasing(group);
    BagKeepsElements(phases, OfId(files, IdOf(group)));
    hide ValidOperationFiles, IsPartition;
    DistinctlySorted(phases, group, PhaseKey);
    SortedIsUnique(phases, group, PhaseKey);
  }

  /** A sorted list without repeats is strictly sorted when its elements have distinct keys. */
  lemma DistinctlySorted<T(!new)>(xs: seq<T>, ys: seq<T>, key: T -> int)
    requires NonDecreasing(xs, key) && NoRepeats(xs) && Increasing(ys, key) && SameElements(xs, ys)
    ensures Increasing(xs, key)
  {
    forall i, j | 0 <= i < j < |xs| ensures key(xs[i]) < key(xs[j]) {
      assert xs[i] in ys && xs[j] in ys;
      var k :| 0 <= k < |ys| && ys[k] == xs[i];
      var l :| 0 <= l < |ys| && ys[l] == xs[j];
      DistinctKeys(ys, k, l, key);
    }
  }

  lemma DistinctKeys<T>(xs: seq<T>, k: nat, l: nat, key: T -> int)
    requires k < |xs| && l < |xs| && Increasing(xs, key)
    ensures key(xs[k]) == key(xs[l]) ==> k == l
  {
  }

  lemma GroupIsShared(xs: seq<seq<OperationRecord>>, ys: seq<seq<OperationRecord>>, files: seq<OperationRecord>,
                      group: seq<OperationRecord>)
    requires IsPartition(xs, files) && IsPartition(ys, files) && group in xs
    ensures group in ys
  {
    GroupHoldsId(xs, files, group);
    assert group[0] in files;
    var other := EveryFileHasGroup(ys, files, group[0]);
    GroupHoldsId(ys, files, other);
    ValidIsIncreasing(group);
    ValidIsIncreasing(other);
    SortedIsUnique(group, other, PhaseKey);
  }

  /** Files partition into operations in one way, up to the order of the operations. */
  lemma PartitionsAgree(xs: seq<seq<OperationRecord>>, ys: seq<seq<OperationRecord>>, files: seq<OperationRecord>)
    requires IsPartition(xs, files) && IsPartition(ys, files)
    ensures SameElements(xs, ys) && |xs| == |ys|
  {
    forall group ensures group in xs <==> group in ys {
      if group in xs { GroupIsShared(xs, ys, files, group); }
      if group in ys { GroupIsShared(ys, xs, files, group); }
    }
    hide ValidOperationFiles;
    DistinctCount(xs);
    DistinctCount(ys);
    assert (set x | x in xs) == (set y | y in ys);
  }

  /** Operations with distinct ordinals are the only ordered partition of their files. */
  lemma OrderedPartitionIsUnique(xs: seq<seq<OperationRecord>>, ys: seq<seq<OperationRecord>>, files: seq<OperationRecord>)
    requires IsPartition(xs, files) && NonDecreasing(xs, OrdinalKey)
    requires IsPartition(ys, files) && Increasing(ys, OrdinalKey)
    ensures xs == ys
  {
    PartitionsAgree(xs, ys, files);
    DistinctlySorted(xs, ys, OrdinalKey);
    SortedIsUnique(xs, ys, OrdinalKey);
  }

  lemma ReorderedPartition(xs: seq<seq<OperationRecord>>, ys: seq<seq<OperationRecord>>, files: seq<OperationRecord>)
    requires IsPartition(xs, files) && multiset(ys) == multiset(xs)
    ensures IsPartition(ys, files) && |ys| == |xs|
  {
    hide ValidOperationFiles;
    BagKeepsElements(ys, xs);
    assert |multiset(ys)| == |multiset(xs)|;
  }

  // ---------------------------------------------------------------- reading a listing

  /** The files met so far, by id, and the ids in order of their first file. */
  ghost predicate Collected(byId: map<nat, seq<OperationRecord>>, ids: seq<nat>, files: seq<OperationRecord>) {
    && NoRepeats(ids)
    && (forall id :: id in ids <==> id in byId)
    && (forall id | id in byId :: byId[id] == OfId(files, id) && byId[id] != [])
    && forall record | record in files :: record.journalId in byId
  }

  function Added(byId: map<nat, seq<OperationRecord>>, record: OperationRecord): map<nat, seq<OperationRecord>> {
    byId[record.journalId := (if record.journalId in byId then byId[record.journalId] else []) + [record]]
  }

  lemma CollectedSnoc(byId: map<nat, seq<OperationRecord>>, ids: seq<nat>, files: seq<OperationRecord>, last: OperationRecord)
    requires Collected(byId, ids, files)
    ensures Collected(Added(byId, last), if last.journalId in byId then ids else ids + [last.journalId], files + [last])
  {
    var more := Added(byId, last);
    forall id | id in more ensures more[id] == OfId(files + [last], id) && more[id] != [] {
      OfIdSnoc(files, last, id);
      FirstOfId(files, id);
    }
  }

  method CollectById(files: seq<OperationRecord>) returns (byId: map<nat, seq<OperationRecord>>, ids: seq<nat>)
    ensures Collected(byId, ids, files)
  {
    byId, ids := map[], [];
    for i := 0 to |files|
      invariant Collected(byId, ids, files[..i])
    {
      assert files[..i + 1] == files[..i] + [files[i]];
      CollectedSnoc(byId, ids, files[..i], files[i]);
      if files[i].journalId !in byId {
        ids := ids + [files[i].journalId];
      }
      byId := Added(byId, files[i]);
    }
    assert files[..|files|] == files;
  }

  /** `group` is the sorted files of `id`. */
  ghost predicate SortedOfId(group: seq<OperationRecord>, files: seq<OperationRecord>, id: nat) {
    && ValidOperationFiles(group)
    && NonDecreasing(group, PhaseKey) && multiset(group) == multiset(OfId(files, id))
  }

  lemma SortedOfIdHolds(group: seq<OperationRecord>, files: seq<OperationRecord>, id: nat)
    requires SortedOfId(group, files, id)
    ensures ValidOperationFiles(group) && IdOf(group) == id && SameElements(group, OfId(files, id))
  {
    BagKeepsElements(group, OfId(files, id));
    assert group[0] in group;
  }

  lemma SortedIsPartition(groups: seq<seq<OperationRecord>>, byId: map<nat, seq<OperationRecord>>, ids: seq<nat>,
                          files: seq<OperationRecord>)
    requires Collected(byId, ids, files) && |groups| == |ids|
    requires forall i | 0 <= i < |ids| :: SortedOfId(groups[i], files, ids[i])
    ensures IsPartition(groups, files)
  {
    hide ValidOperationFiles, NonDecreasing, SortedOfId, NoRepeats, SameElements, IdOf;
    forall i | 0 <= i < |ids|
      ensures ValidOperationFiles(groups[i]) && IdOf(groups[i]) == ids[i] && SameElements(groups[i], OfId(files, ids[i]))
    {
      SortedOfIdHolds(groups[i], files, ids[i]);
    }
    IdsNameGroups(groups, ids);
    GroupsHoldFiles(groups, ids, files);
  }

  lemma IdsNameGroups(groups: seq<seq<OperationRecord>>, ids: seq<nat>)
    requires NoRepeats(ids) && |groups| == |ids|
    requires forall i | 0 <= i < |ids| :: IdOf(groups[i]) == ids[i]
    ensures NoRepeats(groups)
    ensures forall x, y | x in groups && y in groups && IdOf(x) == IdOf(y) :: x == y
  {
    hide IdOf;
  }

  lemma GroupsHoldFiles(groups: seq<seq<OperationRecord>>, ids: seq<nat>, files: seq<OperationRecord>)
    requires |groups| == |ids| && forall record | record in files :: record.journalId in ids
    requires forall i | 0 <= i < |ids| :: SameElements(groups[i], OfId(files, ids[i]))
    ensures forall record :: record in files <==> exists group :: group in groups && record in group
  {
    forall record ensures record in files <==> exists group :: group in groups && record in group {
      if record in files {
        var i :| 0 <= i < |ids| && ids[i] == record.journalId;
        assert groups[i] in groups && record in groups[i];
      }
      if group :| group in groups && record in group {
        var i :| 0 <= i < |groups| && groups[i] == group;
        assert record in OfId(files, ids[i]);
      }
    }
  }

  /**
   Accepts a listing without repeats exactly when its files are those of some valid
   operations, at most MAX_OPERATION_RECEIPTS of them, and returns these by ordinal.
   */
  method RecoveryOperationGroups(files: seq<OperationRecord>) returns (groups: Option<seq<seq<OperationRecord>>>)
    ensures groups.Some? ==> IsPartition(groups.value, files) && NonDecreasing(groups.value, OrdinalKey)
                             && |groups.value| <= MAX_OPERATION_RECEIPTS
    ensures NoRepeats(files) && groups.None? ==>
              forall some | IsPartition(some, files) :: |some| > MAX_OPERATION_RECEIPTS
  {
    hide NonDecreasing, NoRepeats, PhaseKey, OrdinalKey, OfId, IsPartition, ValidOperationFiles;
    var byId, ids := CollectById(files);
    var unsorted := [];
    for i := 0 to |ids|
      invariant |unsorted| == i
      invariant forall k | 0 <= k < i :: SortedOfId(unsorted[k], files, ids[k])
    {
      var phases := Sort(byId[ids[i]], PhaseKey);
      var valid := ReadOperationFiles(phases);
      if !valid {
        InvalidMeansNone(files, ids[i], phases);
        return None;
      }
      unsorted := unsorted + [phases];
    }
    SortedIsPartition(unsorted, byId, ids, files);
    var sorted := Sort(unsorted, OrdinalKey);
    ReorderedPartition(unsorted, sorted, files);
    if |sorted| > MAX_OPERATION_RECEIPTS {
      forall some | IsPartition(some, files) ensures |some| > MAX_OPERATION_RECEIPTS {
        PartitionsAgree(some, sorted, files);
      }
      return None;
    }
    return Some(sorted);
  }

  lemma InvalidMeansNone(files: seq<OperationRecord>, id: nat, phases: seq<OperationRecord>)
    requires OfId(files, id) != [] && !ValidOperationFiles(phases)
    requires NonDecreasing(phases, PhaseKey) && multiset(phases) == multiset(OfId(files, id))
    ensures NoRepeats(files) ==> forall some :: !IsPartition(some, files)
  {
    if NoRepeats(files) {
      forall some ensures !IsPartition(some, files) {
        if IsPartition(some, files) {
          var record := OfId(files, id)[0];
          assert record in OfId(files, id);
          var group := EveryFileHasGroup(some, files, record);
          SortedPhases(some, files, group, phases);
          assert false;
        }
      }
    }
  }

  // ----------------------------------------------------------------- reachable listings

  /** `files` lists the directory's operation files, in any order. */
  ghost predicate Lists(files: seq<OperationRecord>, dir: Directory) {
    NoRepeats(files) &&
    forall record :: record in files <==> exists group :: group in dir.operations && record in group
  }

  function IdAt(stage: Stage, i: nat): (id: Option<nat>) {
    var k := StartOf(stage) + i;
    if k < |History(stage)| then Some(History(stage)[k].draft.journalId)
    else if stage.Open? && !stage.active.Idle? then Some(DraftOf(stage.active).journalId)
    else None
  }

  lemma OperationIdAt(b: Binding, stage: Stage, i: nat)
    requires WellFormed(stage) && i < |OperationFiles(b, stage)|
    ensures OperationFiles(b, stage)[i] != [] && IdAt(stage, i) == Some(IdOf(OperationFiles(b, stage)[i]))
  {
    hide OperationFiles, DoneFiles, ActiveFiles, PlanAfter, WellFormed;
    if StartOf(stage) + i < |History(stage)| {
      DoneFilesAt(b, stage, i);
      DoneFilesAreNamed(b, History(stage), StartOf(stage) + i);
    } else {
      ActiveFilesAt(b, stage, i);
      ActiveFilesSay(PlanAfter(b, stage.history, DraftOf(stage.active)), stage.active);
    }
  }

  /** All four files of an operation carry its journal id. */
  lemma DoneFilesAreNamed(b: Binding, history: seq<Done>, k: nat)
    requires k < |history|
    ensures forall file | 0 <= file < 4 :: DoneFiles(b, history, k)[file].journalId == history[k].draft.journalId
  {
    hide CompletionFor;
  }

  lemma OperationsAreOrdered(s: State)
    requires Inv(s)
    ensures Increasing(s.dir.operations, OrdinalKey) && ReadableOperations(s.dir.operations)
    ensures forall i, j | 0 <= i < j < |s.dir.operations| :: IdOf(s.dir.operations[i]) != IdOf(s.dir.operations[j])
  {
    hide ValidOperationFiles, OperationFiles, RemoteInv, OwnersMatch, ReceiptsKept, TerminalHolds, PlanAfter, CompletionFor;
    LayoutIsReadable(s.binding, s.stage);
    forall i, j | 0 <= i < j < |s.dir.operations|
      ensures OrdinalKey(s.dir.operations[i]) < OrdinalKey(s.dir.operations[j])
      ensures IdOf(s.dir.operations[i]) != IdOf(s.dir.operations[j])
    {
      OperationAt(s.binding, s.stage, i);
      OperationAt(s.binding, s.stage, j);
      OperationIdAt(s.binding, s.stage, i);
      OperationIdAt(s.binding, s.stage, j);
    }
  }

  lemma ReadableIsPartition(dir: Directory, files: seq<OperationRecord>)
    requires Lists(files, dir) && ReadableOperations(dir.operations)
    requires forall i, j | 0 <= i < j < |dir.operations| :: IdOf(dir.operations[i]) != IdOf(dir.operations[j])
    ensures IsPartition(dir.operations, files)
  {
    hide ValidOperationFiles, IdOf;
  }

  /**
   In every reachable state, any order of the directory's files is read as the same
   operations, the ones the state machine holds.
   */
  lemma EveryListingReadsTheSame(states: seq<State>, labels: seq<Label>, i: nat, files: seq<OperationRecord>)
    requires IsRun(states, labels) && i < |states| && Lists(files, states[i].dir)
    ensures IsPartition(states[i].dir.operations, files) && |states[i].dir.operations| <= MAX_OPERATION_RECEIPTS
    ensures forall groups | IsPartition(groups, files) && NonDecreasing(groups, OrdinalKey) ::
              groups == states[i].dir.operations
  {
    var s := states[i];
    assert Inv(s) by { EveryRunIsSafe(states, labels, i); }
    hide Inv, ValidOperationFiles, IsRun;
    OperationsAreOrdered(s);
    ReadableIsPartition(s.dir, files);
    forall groups | IsPartition(groups, files) && NonDecreasing(groups, OrdinalKey)
      ensures groups == s.dir.operations
    {
      OrderedPartitionIsUnique(groups, s.dir.operations, files);
    }
  }
}
