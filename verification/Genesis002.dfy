/**
 The second client of the import engine: its stronger ready check, and the running digest
 over its operations (scripts/genesis002-production-import-core.ts).
 */
module Genesis002 {
  import opened Wrappers
  import opened SnapshotRules
  import opened ImportModel
  import opened ImportRun
  import opened ImportGates
  import opened ImportDriver

  /** `exactReady` */
  predicate ExactReady(o: Observation, a: Authority) {
    && ReadyPostcondition(o.status, a)
    && o.cutover.verified == VerifiedCounts(a.totals.components, a.totals.chunks, a.totals.cells, a.totals.slots, a.totals.resources)
    && SumsExact(o, a)
  }

  predicate SumsExact(o: Observation, a: Authority) {
    && o.cutover.componentExpectedCellCount == o.cutover.importedPassableCellCount
    && o.cutover.componentExpectedSlotCount == a.totals.slots
    && o.cutover.componentExpectedResourceNodeCount == a.totals.resources
  }

  lemma TrackedAtReady(o: Observation, a: Authority)
    requires o.status.state == Ready && Tracked(o, a)
    ensures o.cutover.verified == VerifiedCounts(a.totals.components, a.totals.chunks, a.totals.cells, a.totals.slots, a.totals.resources)
  {
    var v := o.cutover.verified;
    assert VerifiedIn(v, Components).Some? && VerifiedIn(v, Chunks).Some? && VerifiedIn(v, Cells).Some?;
    assert VerifiedIn(v, Slots).Some? && VerifiedIn(v, Resources).Some?;
  }

  /** Exactly ready is ready, with every verified count at its total, and the three sums. */
  lemma ExactlyReadyIsTracked(o: Observation, a: Authority)
    ensures ExactReady(o, a) <==> ReadyPostcondition(o.status, a) && Tracked(o, a) && SumsExact(o, a)
  {
    hide SumsExact;
    if ReadyPostcondition(o.status, a) && Tracked(o, a) { TrackedAtReady(o, a); }
  }

  /**
   A run from nothing verified that ends ready is exactly ready if and only if the three sums
   agree; no postcondition of a later operation fixes them.
   */
  lemma ReadyRunIsExactlyReady(run: seq<Observation>, ops: seq<Operation>, a: Authority)
    requires SumConsistent(a) && IsRun(run, ops, a) && Consistent(run[0].status, a) && Tracked(run[0], a)
    requires ReadyPostcondition(run[|ops|].status, a)
    ensures ExactReady(run[|ops|], a) <==> SumsExact(run[|ops|], a)
  {
    hide IsRun, SumConsistent, Consistent, Tracked, SumsExact;
    assert |run| == |ops| + 1 by { RunHasLength(run, ops, a); }
    RunIsTracked(run, ops, a, |ops|);
    TrackedAtReady(run[|ops|], a);
  }

  lemma RunHasLength(run: seq<Observation>, ops: seq<Operation>, a: Authority)
    requires IsRun(run, ops, a)
    ensures |run| == |ops| + 1
  {
  }

  // --------------------------------------------------------- a server that keeps the frame

  /** The server changes a running sum only in the operation it belongs to. */
  ghost predicate KeepsFrame(op: Operation, before: Cutover, after: Cutover) {
    && (!op.Stage? && !op.ImportComponents? ==>
          && after.componentExpectedCellCount == before.componentExpectedCellCount
          && after.componentExpectedSlotCount == before.componentExpectedSlotCount
          && after.componentExpectedResourceNodeCount == before.componentExpectedResourceNodeCount)
    && (!op.Stage? && !op.ImportChunk? ==> after.importedPassableCellCount == before.importedPassableCellCount)
  }

  ghost predicate RunKeepsFrame(run: seq<Observation>, ops: seq<Operation>)
    requires |run| == |ops| + 1
  {
    forall i | 0 <= i < |ops| :: KeepsFrame(ops[i], run[i].cutover, run[i + 1].cutover)
  }

  /** The running sums are those of the rows imported so far. */
  ghost predicate SumsFollow(o: Observation, a: Authority) {
    && o.status.componentRows <= |a.components| && o.status.chunkRows <= |a.chunks|
    && var components, chunks := a.components[..o.status.componentRows], a.chunks[..o.status.chunkRows];
       && o.cutover.componentExpectedCellCount == CellSum(components)
       && o.cutover.componentExpectedSlotCount == SlotSum(components)
       && o.cutover.componentExpectedResourceNodeCount == ResourceSum(components)
       && o.cutover.importedPassableCellCount == PassableOf(chunks)
  }

  lemma {:induction false} SumAppends(xs: seq<Component>, ys: seq<Component>, of: Component -> nat)
    ensures RowSum(xs + ys, of) == RowSum(xs, of) + RowSum(ys, of)
  {
    if ys == [] {
      assert xs + ys == xs;
    } else {
      assert (xs + ys)[..|xs + ys| - 1] == xs + ys[..|ys| - 1];
      SumAppends(xs, ys[..|ys| - 1], of);
    }
  }

  lemma SumsAppend(xs: seq<Component>, ys: seq<Component>)
    ensures CellSum(xs + ys) == CellSum(xs) + CellSum(ys)
    ensures SlotSum(xs + ys) == SlotSum(xs) + SlotSum(ys)
    ensures ResourceSum(xs + ys) == ResourceSum(xs) + ResourceSum(ys)
  {
    SumAppends(xs, ys, (c: Component) => c.cells);
    SumAppends(xs, ys, (c: Component) => c.slots);
    SumAppends(xs, ys, (c: Component) => c.food);
    SumAppends(xs, ys, (c: Component) => c.wood);
    SumAppends(xs, ys, (c: Component) => c.stone);
    SumAppends(xs, ys, (c: Component) => c.gold);
  }

  lemma ComponentsFollow(op: Operation, before: Observation, after: Observation, a: Authority)
    requires ValidAuthority(a) && Accepted(op, before, after, a) && op.ImportComponents? && SumsFollow(before, a)
    requires KeepsFrame(op, before.cutover, after.cutover)
    ensures SumsFollow(after, a)
  {
    hide CellSum, SlotSum, ResourceSum, AuthorityAgrees, PassableOf;
    OneSubmits(op, before, after, a);
    var c, d := before.status.componentRows, after.status.componentRows;
    assert a.components[..d] == a.components[..c] + op.components;
    SumsAppend(a.components[..c], op.components);
  }

  lemma ChunkFollows(op: Operation, before: Observation, after: Observation, a: Authority)
    requires ValidAuthority(a) && Accepted(op, before, after, a) && op.ImportChunk? && SumsFollow(before, a)
    requires KeepsFrame(op, before.cutover, after.cutover)
    ensures SumsFollow(after, a)
  {
    hide CellSum, SlotSum, ResourceSum, AuthorityAgrees, PassableOf, CellsOf, SlotsOf, ResourcesOf, IsVerifyDigest;
    SnocSum(a.chunks, before.status.chunkRows);
  }

  lemma EmptyComponentSums()
    ensures CellSum([]) == 0 && SlotSum([]) == 0 && ResourceSum([]) == 0
  {
  }

  lemma StageFollows(before: Observation, after: Observation, a: Authority)
    requires ValidAuthority(a) && Accepted(Stage, before, after, a)
    ensures SumsFollow(after, a)
  {
    hide AuthorityAgrees, IsVerifyDigest, CellSum, SlotSum, ResourceSum, PassableOf;
    EmptyComponentSums();
    EmptySums();
    assert a.components[..0] == [] && a.chunks[..0] == [];
  }

  lemma StepFollows(op: Operation, before: Observation, after: Observation, a: Authority)
    requires ValidAuthority(a) && Accepted(op, before, after, a) && KeepsFrame(op, before.cutover, after.cutover)
    requires !op.Stage? ==> SumsFollow(before, a)
    ensures SumsFollow(after, a)
  {
    hide CellSum, SlotSum, ResourceSum, AuthorityAgrees, PassableOf, IsVerifyDigest, IsSha256, Bound, VerifiedIn, WithVerified, NextPhase, PhaseTotal;
    match op
    case Stage => StageFollows(before, after, a);
    case ImportComponents(_) => ComponentsFollow(op, before, after, a);
    case ImportChunk(_) => ChunkFollows(op, before, after, a);
    case _ =>
  }

  lemma {:induction false} RunFollows(run: seq<Observation>, ops: seq<Operation>, a: Authority, n: nat)
    requires ValidAuthority(a) && IsRun(run, ops, a) && RunKeepsFrame(run, ops) && 0 < n <= |ops|
    requires !run[0].status.present
    ensures SumsFollow(run[n], a)
  {
    hide Accepted, SumsFollow, KeepsFrame;
    if n > 1 { RunFollows(run, ops, a, n - 1); } else { AbsentIsStaged(ops[0], run[0], run[1], a); }
    assert Accepted(ops[n - 1], run[n - 1], run[n], a) && KeepsFrame(ops[n - 1], run[n - 1].cutover, run[n].cutover);
    StepFollows(ops[n - 1], run[n - 1], run[n], a);
  }

  lemma AbsentIsStaged(op: Operation, before: Observation, after: Observation, a: Authority)
    requires Accepted(op, before, after, a) && !before.status.present
    ensures op.Stage?
  {
  }

  /** The rows of the manifest sum up to its totals and to its passable cells. */
  ghost predicate ManifestSumsExact(a: Authority) {
    && CellSum(a.components) == PassableOf(a.chunks)
    && SlotSum(a.components) == a.totals.slots && ResourceSum(a.components) == a.totals.resources
  }

  /**
   From an absent release, against a server that keeps the frame: a ready run is exactly ready
   if and only if the manifest's own sums agree.
   */
  lemma ReadyRunFromAbsent(run: seq<Observation>, ops: seq<Operation>, a: Authority)
    requires SumConsistent(a) && IsRun(run, ops, a) && RunKeepsFrame(run, ops)
    requires run[0].status.state == Absent && Consistent(run[0].status, a) && !run[0].status.present
    requires run[0].cutover.verified == VerifiedCounts(0, 0, 0, 0, 0)
    requires ReadyPostcondition(run[|ops|].status, a)
    ensures ExactReady(run[|ops|], a) <==> ManifestSumsExact(a)
  {
    hide Accepted, Consistent, Tracked, CellSum, SlotSum, ResourceSum, PassableOf, IsSha256, KeepsFrame, CellsOf, SlotsOf, ResourcesOf, ExactReady;
    AbsentIsTracked(run[0], a);
    ReadyRunIsExactlyReady(run, ops, a);
    assert ops != [];
    RunFollows(run, ops, a, |ops|);
    assert a.components[..|a.components|] == a.components && a.chunks[..|a.chunks|] == a.chunks;
  }

  // ---------------------------------------------------------------- the operation chain

  /** What one accepted operation adds to the running digest. */
  datatype Entry = Entry(ordinal: nat, operation: Operation, before: Observation, after: Observation, acknowledged: bool)

  /** Digests under a hash that nobody can make collide, and whose seed is no entry's digest. */
  ghost predicate Injective<D(!new)>(hash: (D, Entry) -> D, seed: D) {
    && (forall c, d, x, y :: hash(c, x) == hash(d, y) ==> c == d && x == y)
    && (forall c, x :: hash(c, x) != seed)
  }

  ghost function Folded<D>(hash: (D, Entry) -> D, seed: D, entries: seq<Entry>): D {
    if entries == [] then seed else hash(Folded(hash, seed, entries[..|entries| - 1]), entries[|entries| - 1])
  }

  ghost function OperationsOf(entries: seq<Entry>): seq<Operation> {
    seq(|entries|, i requires 0 <= i < |entries| => entries[i].operation)
  }

  ghost predicate EntryHolds(entry: Entry, a: Authority) {
    Accepted(entry.operation, entry.before, entry.after, a)
  }

  /** Entries numbered from 1, each of an accepted operation. */
  ghost predicate Numbered(entries: seq<Entry>, a: Authority) {
    forall i | 0 <= i < |entries| :: entries[i].ordinal == i + 1 && EntryHolds(entries[i], a)
  }

  // --------------------------------------------------------------------- the executor

  /** What the executor must return against a quiet server, given turns enough. */
  ghost predicate ExactlyBounded(start: Observation, turns: seq<Turn>, a: Authority, maximum: nat, result: Result, submissions: nat)
    requires |turns| >= Remaining(start.status, a)
  {
    var needed := Remaining(start.status, a);
    if ExactReady(start, a) then result == Receipt(AlreadyReady, 0) && submissions == 0
    else if needed > maximum then result == Failed(OperationLimit) && submissions == maximum
    else if needed > 0 && Unfinalizable(Seen(start, turns, needed - 1).status) then
      result == Failed(PlanRefused(VerifyDigestInvalid)) && submissions == needed - 1
    else if ExactReady(Seen(start, turns, needed), a) then
      && result == Receipt(if Unacknowledged(turns, needed) then VerifiedAfterSubmissionError else ReadyNow, needed)
      && submissions == needed
    else
      && result == Failed(if needed < maximum then ReadyPostconditionFailed else OperationLimit)
      && submissions == needed
  }

  /** Where the loop stands against a quiet server: the entries are the turns taken. */
  ghost predicate OnCourse(start: Observation, turns: seq<Turn>, a: Authority, entries: seq<Entry>, last: Observation, recovered: bool) {
    && |entries| <= |turns| && last == Seen(start, turns, |entries|)
    && Consistent(last.status, a) && !ExactReady(last, a)
    && Remaining(start.status, a) == |entries| + Remaining(last.status, a)
    && recovered == Unacknowledged(turns, |entries|)
    && Taken(start, turns, entries)
  }

  ghost predicate Taken(start: Observation, turns: seq<Turn>, entries: seq<Entry>) {
    && |entries| <= |turns|
    && forall i | 0 <= i < |entries| :: entries[i].before == Seen(start, turns, i) && entries[i].after == turns[i].after
  }

  /** The entries of a quiet execution that ended ready: the rows they submitted are exactly those that were missing. */
  ghost predicate SubmittedTheRest(start: Observation, entries: seq<Entry>, a: Authority) {
    var ops, s := OperationsOf(entries), start.status;
    && s.componentRows <= |a.components| && ComponentsIn(ops) == a.components[s.componentRows..]
    && s.regionManifestRows <= |a.regions| && RegionsIn(ops) == a.regions[s.regionManifestRows..]
    && s.chunkRows <= |a.chunks| && ChunksIn(ops) == a.chunks[s.chunkRows..]
  }

  ghost function Exactness(a: Authority): Observation -> bool {
    (o: Observation) => ExactReady(o, a)
  }

  /** The entries are the turns that wrote, one by one, with what each of them met. */
  ghost predicate Recorded(start: Observation, turns: seq<Turn>, a: Authority, used: nat, entries: seq<Entry>) {
    && used <= |turns| && |entries| == |Landed(start, turns, a, used)|
    && forall k | 0 <= k < |entries| :: RecordsTurn(entries[k], k + 1, turns[Landed(start, turns, a, used)[k]], a)
  }

  ghost predicate RecordsTurn(entry: Entry, ordinal: nat, turn: Turn, a: Authority) {
    && PlanNext(turn.prewrite.status, a).Submit?
    && entry == Entry(ordinal, PlanNext(turn.prewrite.status, a).operation, turn.prewrite, turn.after, turn.acknowledged)
  }

  lemma NothingRecorded(start: Observation, turns: seq<Turn>, a: Authority)
    ensures Recorded(start, turns, a, 0, [])
  {
  }

  lemma RecordsOn(start: Observation, turns: seq<Turn>, a: Authority, maximum: nat, next: nat, last: Observation, recovered: bool,
                  entries: seq<Entry>)
    requires OnTrack(start, turns, a, maximum, false, next, last, |entries|, recovered)
    requires next < |turns| && Recorded(start, turns, a, next, entries) && PlanNext(last.status, a).Submit?
    ensures var turn, plan := turns[next], PlanNext(last.status, a);
            if PlanNext(turn.prewrite.status, a) == plan
            then Recorded(start, turns, a, next + 1,
                          entries + [Entry(|entries| + 1, plan.operation, turn.prewrite, turn.after, turn.acknowledged)])
            else Recorded(start, turns, a, next + 1, entries)
  {
    hide PlanNext, Known, Passed, WithoutAck;
    var landed, more := Landed(start, turns, a, next), Landed(start, turns, a, next + 1);
    if PlanNext(turns[next].prewrite.status, a) == PlanNext(last.status, a) {
      assert more == landed + [next];
    } else {
      assert more == landed;
    }
  }

  /** `executeGenesis002ProductionImport`: the loop of the first client, with the stronger check and the digest. */
  method Execute<D>(a: Authority, start: Observation, turns: seq<Turn>, maximum: nat, hash: (D, Entry) -> D, seed: D)
    returns (result: Result, entries: seq<Entry>, chain: D, last: Observation)
    requires ValidAuthority(a)
    ensures |entries| <= maximum && Numbered(entries, a) && chain == Folded(hash, seed, entries)
    ensures result.Receipt? ==>
              && result.submitted == |entries|
              && (result.outcome == AlreadyReady <==> ExactReady(start, a))
              && Bound(last, a) && ExactReady(last, a)
    ensures maximum < 1 || maximum > 4096 ==> result == Failed(InputInvalid)
    ensures exists used :: EndsAt(start, turns, a, maximum, false, Exactness(a), used, last, |entries|, result)
                           && Recorded(start, turns, a, used, entries)
    ensures 1 <= maximum <= MAXIMUM_OPERATIONS && BoundApplies(start, turns, a, false) && |turns| >= Remaining(start.status, a) ==>
              && ExactlyBounded(start, turns, a, maximum, result, |entries|)
              && (result.Receipt? ==> SubmittedTheRest(start, entries, a))
  {
    hide Accepted, WasAccepted, EntryHolds, Numbered, Consistent, Remaining, SumConsistent, Bound, PlanNext, ExactReady, Quiet, Unacknowledged, Unfinalizable, Taken, Folded, SubmittedTheRest, ReadyPostcondition;
    hide OnTrack, Passed, WithoutAck, StopsWith, Known, Landed, EndsAt, Recorded, Postcondition, GateHolds, ExpectedAfter, RecordsTurn;
    result, entries, chain, last := Waiting, [], seed, start;
    NothingYet(a, hash, seed);
    StartsOnTrack(start, turns, a, maximum, false);
    NothingRecorded(start, turns, a);
    EndsOnTrack(start, turns, a, maximum, false, Exactness(a), 0, start, 0, false);
    if maximum < 1 || maximum > MAXIMUM_OPERATIONS { return Failed(InputInvalid), [], seed, start; }
    if !Bound(start, a) { return Failed(InspectionInvalid), [], seed, start; }
    ghost var exact := BoundApplies(start, turns, a, false) && |turns| >= Remaining(start.status, a);
    NoneTaken(start, turns);
    if exact { RestOfReady(start, turns, a, entries); }
    if ExactReady(start, a) { return Receipt(AlreadyReady, 0), [], seed, start; }

    var recovered, next := false, 0;
    NoneUnacknowledged(turns);
    while |entries| < maximum
      invariant next <= |turns| && |entries| <= maximum && Bound(last, a)
      invariant Numbered(entries, a) && chain == Folded(hash, seed, entries)
      invariant OnTrack(start, turns, a, maximum, false, next, last, |entries|, recovered)
      invariant Recorded(start, turns, a, next, entries)
      invariant |entries| < maximum || !ExactReady(last, a)
      invariant exact ==> next == |entries| && OnCourse(start, turns, a, entries, last, recovered)
      decreases |turns| - next
    {
      EndsOnTrack(start, turns, a, maximum, false, Exactness(a), next, last, |entries|, recovered);
      if exact {
        ConsistentIsPlannable(last.status, a);
        LastWasFinalizable(start, turns, a, entries);
      }
      var plan := PlanNext(last.status, a);
      if plan.Finished? {
        if !ExactReady(last, a) { return Failed(ReadyPostconditionFailed), entries, chain, last; }
        return Receipt(if recovered then VerifiedAfterSubmissionError else ReadyNow, |entries|), entries, chain, last;
      }
      if plan.Refuse? { return Failed(PlanRefused(plan.why)), entries, chain, last; }
      if next == |turns| { return Waiting, entries, chain, last; }
      var turn := turns[next];
      if exact {
        QuietAdvances(start, turns, a, next, last, plan.operation, false);
        UnacknowledgedStep(turns, next);
        SeenAgain(start, turns, a, next);
      }
      var round := PlayRound(a, plan.operation, turn, false);
      match round
      case Stop(code) => return Failed(code), entries, chain, last;
      case Stale =>
        RoundPasses(start, turns, a, maximum, false, next, last, |entries|, recovered);
        RecordsOn(start, turns, a, maximum, next, last, recovered, entries);
        last := turn.prewrite;
        next := next + 1;
      case Advanced(step) =>
        AcceptedIsBound(step, a, false);
        RoundPasses(start, turns, a, maximum, false, next, last, |entries|, recovered);
        RecordsOn(start, turns, a, maximum, next, last, recovered, entries);
        var entry := Entry(|entries| + 1, plan.operation, turn.prewrite, turn.after, turn.acknowledged);
        EntryAdded(a, hash, seed, entries, entry);
        if exact { OneMoreTaken(start, turns, entries, entry); }
        entries, chain, last, recovered := entries + [entry], hash(chain, entry), turn.after, recovered || !turn.acknowledged;
        next := next + 1;
        EndsOnTrack(start, turns, a, maximum, false, Exactness(a), next, last, |entries|, recovered);
        if exact {
          RestOfReady(start, turns, a, entries);
          LastWasFinalizable(start, turns, a, entries);
          ExactIsReady(last, a);
        }
        if ExactReady(last, a) {
          return Receipt(if recovered then VerifiedAfterSubmissionError else ReadyNow, |entries|), entries, chain, last;
        }
    }
    if exact {
      ConsistentIsPlannable(last.status, a);
      LastWasFinalizable(start, turns, a, entries);
    }
    EndsOnTrack(start, turns, a, maximum, false, Exactness(a), next, last, |entries|, recovered);
    result := Failed(OperationLimit);
  }

  lemma SeenAgain(start: Observation, turns: seq<Turn>, a: Authority, i: nat)
    requires Quiet(start, turns, a, false) && i < |turns|
    ensures turns[i].prewrite == Seen(start, turns, i)
  {
    hide PlanNext, Accepted;
    assert QuietTurn(turns[i], Seen(start, turns, i), a, false);
  }

  lemma NoneTaken(start: Observation, turns: seq<Turn>)
    ensures Taken(start, turns, [])
  {
  }

  lemma ExactIsReady(o: Observation, a: Authority)
    ensures ExactReady(o, a) ==> ReadyPostcondition(o.status, a)
  {
    hide ReadyPostcondition;
  }

  lemma OneMoreTaken(start: Observation, turns: seq<Turn>, entries: seq<Entry>, entry: Entry)
    requires Taken(start, turns, entries) && |entries| < |turns|
    requires entry.before == Seen(start, turns, |entries|) && entry.after == turns[|entries|].after
    ensures Taken(start, turns, entries + [entry])
  {
  }

  lemma EntryAdded<D>(a: Authority, hash: (D, Entry) -> D, seed: D, entries: seq<Entry>, entry: Entry)
    requires Numbered(entries, a) && entry.ordinal == |entries| + 1
    requires WasAccepted(Submission(entry.operation, entry.before, entry.after), a, false)
    ensures Numbered(entries + [entry], a)
    ensures Folded(hash, seed, entries + [entry]) == hash(Folded(hash, seed, entries), entry)
  {
    hide Accepted;
    assert (entries + [entry])[..|entries|] == entries;
  }

  /** A state that a submitted operation was planned from was no dead end. */
  lemma LastWasFinalizable(start: Observation, turns: seq<Turn>, a: Authority, entries: seq<Entry>)
    requires Taken(start, turns, entries) && Numbered(entries, a)
    ensures entries != [] ==> !Unfinalizable(Seen(start, turns, |entries| - 1).status)
  {
    hide IsSha256, Postcondition, Bound;
    if entries != [] { assert EntryHolds(entries[|entries| - 1], a); }
  }

  /** A quiet execution that ended ready was a run, and so submitted what was missing. */
  lemma RestOfReady(start: Observation, turns: seq<Turn>, a: Authority, entries: seq<Entry>)
    requires ValidAuthority(a) && Bound(start, a) && Taken(start, turns, entries) && Numbered(entries, a)
    ensures ExactReady(Seen(start, turns, |entries|), a) ==> SubmittedTheRest(start, entries, a)
  {
    hide Accepted, ReadyPostcondition, ComponentsIn, RegionsIn, ChunksIn, StatusMatchesRelease, AuthorityAgrees;
    if ExactReady(Seen(start, turns, |entries|), a) {
      var run := seq(|entries| + 1, i requires 0 <= i <= |entries| => Seen(start, turns, i));
      var ops := OperationsOf(entries);
      forall i | 0 <= i < |ops| ensures Accepted(ops[i], run[i], run[i + 1], a) {
        assert EntryHolds(entries[i], a);
      }
      ReadyRunSubmitsTheRest(run, ops, a);
    }
  }

  lemma NothingYet<D>(a: Authority, hash: (D, Entry) -> D, seed: D)
    ensures Folded(hash, seed, []) == seed && Numbered([], a)
  {
  }

  /** The chain digest determines the whole list of operations. */
  lemma {:induction false} ChainDeterminesOperations<D(!new)>(hash: (D, Entry) -> D, seed: D, xs: seq<Entry>, ys: seq<Entry>)
    requires Injective(hash, seed) && Folded(hash, seed, xs) == Folded(hash, seed, ys)
    ensures xs == ys
  {
    if xs != [] && ys != [] {
      var m, n := |xs| - 1, |ys| - 1;
      ChainDeterminesOperations(hash, seed, xs[..m], ys[..n]);
      assert xs == xs[..m] + [xs[m]] && ys == ys[..n] + [ys[n]];
    }
  }
}
