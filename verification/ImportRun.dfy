/**
 Whole import runs: what accepted steps keep, how many operations are left, and what the
 submitted batches add up to.
 */
module ImportRun {
  import opened Wrappers
  import opened SnapshotRules
  import opened ImportModel

  // ------------------------------------------------------------------- sums of a manifest

  ghost function ChunkSum(chunks: seq<Chunk>, of: Chunk -> nat): nat {
    if chunks == [] then 0 else ChunkSum(chunks[..|chunks| - 1], of) + of(chunks[|chunks| - 1])
  }

  ghost function CellsOf(chunks: seq<Chunk>): nat { ChunkSum(chunks, (c: Chunk) => c.cells) }
  ghost function SlotsOf(chunks: seq<Chunk>): nat { ChunkSum(chunks, (c: Chunk) => c.slots) }
  ghost function ResourcesOf(chunks: seq<Chunk>): nat { ChunkSum(chunks, (c: Chunk) => c.resources) }
  ghost function PassableOf(chunks: seq<Chunk>): nat { ChunkSum(chunks, (c: Chunk) => c.passable) }

  /** The chunks of the manifest hold what its totals say. */
  ghost predicate SumConsistent(a: Authority) {
    && ValidAuthority(a)
    && CellsOf(a.chunks) == a.totals.cells && SlotsOf(a.chunks) == a.totals.slots
    && ResourcesOf(a.chunks) == a.totals.resources
  }

  lemma SnocSum(chunks: seq<Chunk>, k: nat)
    requires k < |chunks|
    ensures CellsOf(chunks[..k + 1]) == CellsOf(chunks[..k]) + chunks[k].cells
    ensures SlotsOf(chunks[..k + 1]) == SlotsOf(chunks[..k]) + chunks[k].slots
    ensures ResourcesOf(chunks[..k + 1]) == ResourcesOf(chunks[..k]) + chunks[k].resources
    ensures PassableOf(chunks[..k + 1]) == PassableOf(chunks[..k]) + chunks[k].passable
  {
    assert chunks[..k + 1][..k] == chunks[..k];
  }

  // --------------------------------------------------------------------- consistent states

  ghost predicate CountsFollowChunks(s: Status, a: Authority) {
    && s.chunkRows <= |a.chunks|
    && s.cellRows == CellsOf(a.chunks[..s.chunkRows]) && s.slotRows == SlotsOf(a.chunks[..s.chunkRows])
    && s.resourceRows == ResourcesOf(a.chunks[..s.chunkRows])
  }

  /** A state the driver can have left behind: rows in planning order, exactness reported truly. */
  ghost predicate Consistent(s: Status, a: Authority) {
    if !s.present then
      s.regionManifestRows == 0 && s.verificationPhase == Components && s.verificationCursor == 0 && !s.importsExact
    else
      && StatusMatchesRelease(s, a) && ImportOnly(s, a)
      && match s.state
         case Importing =>
           && CountsFollowChunks(s, a)
           && (s.chunkRows > 0 ==> s.componentRows == a.totals.components && s.regionManifestRows == a.totals.regions)
           && s.importsExact == ImportedCountsExact(s, a)
         case Verifying =>
           && ImportedCountsExact(s, a) && s.importsExact
           && s.verificationCursor <= PhaseTotal(s, s.verificationPhase)
           && (s.verificationPhase == Complete ==> s.verificationCursor == 0)
         case Ready => ReadyPostcondition(s, a)
         case _ => false
  }

  // ---------------------------------------------------------------------- operations left

  function Batches(rows: nat, limit: nat): nat
    requires limit > 0
  {
    (rows + limit - 1) / limit
  }

  ghost function PhaseBatches(total: nat, cursor: nat): nat {
    if cursor >= total then 1 else Batches(total - cursor, VERIFY_ROWS)
  }

  ghost function PhaseSize(a: Authority, phase: VerifyPhase): nat {
    match phase
    case Chunks => a.totals.chunks
    case Cells => a.totals.cells
    case Slots => a.totals.slots
    case Resources => a.totals.resources
    case _ => a.totals.components
  }

  ghost function PhasesAfter(phase: VerifyPhase): nat {
    match phase
    case Components => 7
    case Chunks => 6
    case Cells => 5
    case ComponentSlots => 4
    case Slots => 3
    case ComponentResources => 2
    case Resources => 1
    case ComponentFinalize => 0
    case Complete => 0
  }

  /** Verify batches from the start of `phase` to the end of the last phase. */
  ghost function VerifyFrom(a: Authority, phase: VerifyPhase): nat
    decreases PhasesAfter(phase)
  {
    if phase == Complete then 0
    else PhaseBatches(PhaseSize(a, phase), 0) + if phase == ComponentFinalize then 0 else VerifyFrom(a, NextPhase(phase))
  }

  ghost function VerifyLeft(a: Authority, phase: VerifyPhase, cursor: nat): nat {
    if phase == Complete then 0 else PhaseBatches(PhaseSize(a, phase), cursor) + VerifyFrom(a, NextPhase(phase))
  }

  ghost function ImportLeft(a: Authority, components: nat, regions: nat, chunks: nat): nat {
    (if components < |a.components| then Batches(|a.components| - components, COMPONENT_ROWS) else 0)
    + (if regions < |a.regions| then Batches(|a.regions| - regions, REGION_ROWS) else 0)
    + (if chunks < |a.chunks| then |a.chunks| - chunks else 0)
  }

  /** Exactly how many operations lie between this state and ready. */
  ghost function Remaining(s: Status, a: Authority): nat {
    if !s.present then 1 + ImportLeft(a, s.componentRows, s.regionManifestRows, s.chunkRows) + 1 + VerifyFrom(a, Components) + 1
    else match s.state
      case Importing => ImportLeft(a, s.componentRows, s.regionManifestRows, s.chunkRows) + 1 + VerifyFrom(a, Components) + 1
      case Verifying => VerifyLeft(a, s.verificationPhase, s.verificationCursor) + 1
      case _ => 0
  }

  lemma OneBatchLess(rows: nat, limit: nat)
    requires limit > 0 && rows > 0
    ensures Batches(rows, limit) == 1 + Batches(if rows > limit then rows - limit else 0, limit)
  {
    if rows > limit {
      assert rows + limit - 1 == (rows - limit + limit - 1) + limit;
      assert (rows - limit + limit - 1 + limit) / limit == (rows - limit + limit - 1) / limit + 1 by {
        DivideStep(rows - 1, limit);
      }
    } else {
      assert rows + limit - 1 == (rows - 1) + limit;
      DivideStep(rows - 1, limit);
      Small(rows - 1, limit);
      Small(limit - 1, limit);
    }
  }

  lemma DivideStep(n: nat, d: nat)
    requires d > 0
    ensures (n + d) / d == n / d + 1
  {
    var q, r := n / d, n % d;
    assert n + d == (q + 1) * d + r;
    Quotient(n + d, d, q + 1, r);
  }

  lemma Quotient(n: nat, d: nat, q: nat, r: nat)
    requires d > 0 && n == q * d + r && r < d
    ensures n / d == q
  {
    var p := n / d;
    assert n == p * d + n % d;
    if p < q { assert (p + 1) * d <= q * d by { Monotone(p + 1, q, d); } }
    if q < p { assert (q + 1) * d <= p * d by { Monotone(q + 1, p, d); } }
  }

  lemma Monotone(x: nat, y: nat, d: nat)
    requires x <= y
    ensures x * d <= y * d
  {
  }

  lemma Small(n: nat, d: nat)
    requires n < d
    ensures n / d == 0
  {
  }

  /** A batch is short only at the end of its table. */
  lemma BatchSizes(s: Status, a: Authority)
    requires PlanNext(s, a).Submit?
    ensures match PlanNext(s, a).operation
            case ImportComponents(rows) =>
              && 1 <= |rows| <= 128 && s.componentRows + |rows| <= |a.components|
              && (|rows| < 128 ==> s.componentRows + |rows| == |a.components|)
            case ImportRegions(rows) =>
              && 1 <= |rows| <= 6 && s.regionManifestRows + |rows| <= |a.regions|
              && (|rows| < 6 ==> s.regionManifestRows + |rows| == |a.regions|)
            case VerifyBatch(requested) => requested == 256
            case _ => true
  {
  }

  /** `Batches` is the division rounded up. */
  lemma BatchesRoundUp(rows: nat, limit: nat)
    requires limit > 0
    ensures Batches(rows, limit) * limit >= rows
    ensures rows > 0 ==> (Batches(rows, limit) - 1) * limit < rows
  {
    var n := rows + limit - 1;
    assert n == (n / limit) * limit + n % limit;
  }

  /** From an absent release: one stage, the batches of each table, one per chunk, begin, eight phases, finalize. */
  lemma RemainingFromAbsent(s: Status, a: Authority)
    requires SumConsistent(a) && !s.present && ProjectsStatus(s) && s.regionManifestRows == 0
    ensures Remaining(s, a)
         == 1 + Batches(a.totals.components, COMPONENT_ROWS) + Batches(a.totals.regions, REGION_ROWS) + a.totals.chunks + 1
            + 4 * PhaseBatches(a.totals.components, 0) + PhaseBatches(a.totals.chunks, 0) + PhaseBatches(a.totals.cells, 0)
            + PhaseBatches(a.totals.slots, 0) + PhaseBatches(a.totals.resources, 0) + 1
  {
    hide PhaseBatches, Batches, CellsOf, SlotsOf, ResourcesOf;
    NoRowsNoBatch(COMPONENT_ROWS);
    NoRowsNoBatch(REGION_ROWS);
    VerifyBegins(a);
    assert VerifyFrom(a, ComponentSlots) == PhaseBatches(a.totals.components, 0) + VerifyFrom(a, Slots);
    assert VerifyFrom(a, Resources) == PhaseBatches(a.totals.resources, 0) + VerifyFrom(a, ComponentFinalize);
  }

  // ---------------------------------------------------------------- one accepted operation

  /** What the driver and the server did together in one round of the loop. */
  ghost predicate Accepted(op: Operation, before: Observation, after: Observation, a: Authority) {
    && PlanNext(before.status, a) == Submit(op)
    && Bound(before, a) && Bound(after, a)
    && Postcondition(op, before, after, a)
  }

  /** Verification is complete, but its digest is not the plain one that finalizing needs. */
  ghost predicate Unfinalizable(s: Status) {
    s.present && s.state == Verifying && s.verificationPhase == Complete && !IsSha256(s.verificationDigest)
  }

  /** A manifest with castle slots has chunks. */
  lemma ChunksExist(a: Authority)
    requires SumConsistent(a)
    ensures |a.chunks| > 0
  {
    assert SlotsOf([]) == 0;
  }

  lemma NoRowsNoBatch(limit: nat)
    requires limit > 0
    ensures Batches(0, limit) == 0
  {
    Small(limit - 1, limit);
  }

  lemma EmptySums()
    ensures CellsOf([]) == 0 && SlotsOf([]) == 0 && ResourcesOf([]) == 0 && PassableOf([]) == 0
  {
  }

  ghost predicate Counts(op: Operation, before: Observation, after: Observation, a: Authority) {
    Consistent(after.status, a) && Remaining(before.status, a) == 1 + Remaining(after.status, a)
  }

  lemma StageCounts(before: Observation, after: Observation, a: Authority)
    requires SumConsistent(a) && Accepted(Stage, before, after, a) && Consistent(before.status, a)
    ensures Counts(Stage, before, after, a)
  {
    hide IsSha256, IsVerifyDigest, VerifyFrom, AuthorityAgrees, Batches;
    ChunksExist(a);
    assert a.chunks[..0] == [];
    EmptySums();
  }

  lemma ComponentsCount(op: Operation, before: Observation, after: Observation, a: Authority)
    requires SumConsistent(a) && op.ImportComponents? && Accepted(op, before, after, a) && Consistent(before.status, a)
    ensures Counts(op, before, after, a)
  {
    hide IsSha256, CellsOf, SlotsOf, ResourcesOf, CellSum, SlotSum, ResourceSum, VerifyFrom, AuthorityAgrees, Batches;
    ChunksExist(a);
    OneBatchLess(|a.components| - before.status.componentRows, COMPONENT_ROWS);
    NoRowsNoBatch(COMPONENT_ROWS);
  }

  lemma RegionsCount(op: Operation, before: Observation, after: Observation, a: Authority)
    requires SumConsistent(a) && op.ImportRegions? && Accepted(op, before, after, a) && Consistent(before.status, a)
    ensures Counts(op, before, after, a)
  {
    hide IsSha256, CellsOf, SlotsOf, ResourcesOf, VerifyFrom, AuthorityAgrees, Batches;
    ChunksExist(a);
    OneBatchLess(|a.regions| - before.status.regionManifestRows, REGION_ROWS);
    NoRowsNoBatch(REGION_ROWS);
  }

  lemma ChunkCounts(op: Operation, before: Observation, after: Observation, a: Authority)
    requires SumConsistent(a) && op.ImportChunk? && Accepted(op, before, after, a) && Consistent(before.status, a)
    ensures Counts(op, before, after, a)
  {
    hide IsSha256, IsVerifyDigest, CellsOf, SlotsOf, ResourcesOf, PassableOf, VerifyFrom, AuthorityAgrees, Batches;
    SnocSum(a.chunks, before.status.chunkRows);
    assert a.chunks[..|a.chunks|] == a.chunks;
  }

  lemma BeginCounts(before: Observation, after: Observation, a: Authority)
    requires SumConsistent(a) && Accepted(BeginVerification, before, after, a) && Consistent(before.status, a)
    ensures Counts(BeginVerification, before, after, a)
  {
    hide IsSha256, IsVerifyDigest, CellsOf, SlotsOf, ResourcesOf, AuthorityAgrees, Batches;
    VerifyBegins(a);
    assert Consistent(after.status, a);
    assert ImportLeft(a, before.status.componentRows, before.status.regionManifestRows, before.status.chunkRows) == 0;
  }

  lemma VerifyBegins(a: Authority)
    ensures VerifyFrom(a, Components) == VerifyLeft(a, Components, 0)
  {
    hide PhaseBatches;
  }

  lemma VerifyCounts(op: Operation, before: Observation, after: Observation, a: Authority)
    requires SumConsistent(a) && op.VerifyBatch? && Accepted(op, before, after, a) && Consistent(before.status, a)
    ensures Counts(op, before, after, a)
  {
    hide IsSha256, IsVerifyDigest, SumConsistent, AuthorityAgrees, VerifyLeft, NextPhase, PhaseSize;
    var s := before.status;
    assert PhaseTotal(s, s.verificationPhase) == PhaseSize(a, s.verificationPhase) by { TotalIsSize(s, a); }
    VerifyStep(a, s.verificationPhase, s.verificationCursor);
  }

  lemma TotalIsSize(s: Status, a: Authority)
    requires StatusMatchesRelease(s, a) && s.verificationPhase != Complete
    ensures PhaseTotal(s, s.verificationPhase) == PhaseSize(a, s.verificationPhase)
  {
  }

  /** One verify batch: on within its phase, or on to the next one. */
  lemma VerifyStep(a: Authority, phase: VerifyPhase, cursor: nat)
    requires phase != Complete && cursor <= PhaseSize(a, phase)
    ensures var total := PhaseSize(a, phase);
            var end := BatchEnd(total, cursor, VERIFY_ROWS);
            VerifyLeft(a, phase, cursor)
            == 1 + if end == total then VerifyLeft(a, NextPhase(phase), 0) else VerifyLeft(a, phase, end)
  {
    hide Batches;
    var total := PhaseSize(a, phase);
    if cursor < total {
      OneBatchLess(total - cursor, VERIFY_ROWS);
    }
    NoRowsNoBatch(VERIFY_ROWS);
  }

  lemma FinalizeCounts(op: Operation, before: Observation, after: Observation, a: Authority)
    requires SumConsistent(a) && op.Finalize? && Accepted(op, before, after, a) && Consistent(before.status, a)
    ensures Counts(op, before, after, a)
  {
    hide IsSha256, CellsOf, SlotsOf, ResourcesOf, AuthorityAgrees, Batches, SumConsistent;
  }

  /** Every accepted operation leaves a consistent state that needs exactly one operation less. */
  lemma AcceptedCounts(op: Operation, before: Observation, after: Observation, a: Authority)
    requires SumConsistent(a) && Accepted(op, before, after, a) && Consistent(before.status, a)
    ensures Consistent(after.status, a) && Remaining(before.status, a) == 1 + Remaining(after.status, a)
  {
    hide Accepted, Consistent, Remaining, SumConsistent;
    match op
    case Stage => StageCounts(before, after, a);
    case ImportComponents(_) => ComponentsCount(op, before, after, a);
    case ImportRegions(_) => RegionsCount(op, before, after, a);
    case ImportChunk(_) => ChunkCounts(op, before, after, a);
    case BeginVerification => BeginCounts(before, after, a);
    case VerifyBatch(_) => VerifyCounts(op, before, after, a);
    case Finalize(_) => FinalizeCounts(op, before, after, a);
  }

  /**
   A consistent state has nothing left to do exactly when it is ready, and is refused exactly
   when one operation is left and the digest is not a plain one.
   */
  lemma ConsistentIsPlannable(s: Status, a: Authority)
    requires SumConsistent(a) && Consistent(s, a)
    ensures PlanNext(s, a).Submit? <==> Remaining(s, a) > 0 && !Unfinalizable(s)
    ensures PlanNext(s, a).Finished? <==> Remaining(s, a) == 0
    ensures Remaining(s, a) == 0 <==> ReadyPostcondition(s, a)
    ensures PlanNext(s, a).Refuse? ==> PlanNext(s, a) == Refuse(VerifyDigestInvalid)
    ensures Unfinalizable(s) ==> Remaining(s, a) == 1
  {
    hide IsSha256, VerifyFrom, ImportLeft, CellsOf, SlotsOf, ResourcesOf, PhaseBatches, NextPhase, PhaseSize;
    assert a.chunks[..|a.chunks|] == a.chunks;
  }

  /**
   The postcondition accepts a last verify batch whose digest the planner then refuses: the
   driver is stopped there for good if and only if the digest is not a plain SHA-256.
   */
  lemma PlainDigestDecides(op: Operation, before: Observation, after: Observation, a: Authority)
    requires op.VerifyBatch? && Accepted(op, before, after, a) && after.status.verificationPhase == Complete
    ensures PlanNext(after.status, a) == Refuse(VerifyDigestInvalid) <==> !IsSha256(after.status.verificationDigest)
  {
    hide IsSha256, IsVerifyDigest, AuthorityAgrees;
  }

  // ------------------------------------------------------------------------ accepted runs

  /** Observations joined by accepted operations. */
  ghost predicate IsRun(run: seq<Observation>, ops: seq<Operation>, a: Authority) {
    && |run| == |ops| + 1
    && forall i | 0 <= i < |ops| :: Accepted(ops[i], run[i], run[i + 1], a)
  }

  lemma {:induction false} RunCounts(run: seq<Observation>, ops: seq<Operation>, a: Authority, n: nat)
    requires SumConsistent(a) && IsRun(run, ops, a) && Consistent(run[0].status, a) && n <= |ops|
    ensures Consistent(run[n].status, a) && Remaining(run[0].status, a) == n + Remaining(run[n].status, a)
  {
    hide Accepted, Consistent, Remaining, SumConsistent;
    if n > 0 {
      RunCounts(run, ops, a, n - 1);
      AcceptedCounts(ops[n - 1], run[n - 1], run[n], a);
    }
  }

  // ---------------------------------------------------------------------- verified counts

  /** What each count has reached: its total in past phases, the cursor in the current one, zero later. */
  ghost function Reached(s: Status, a: Authority, phase: VerifyPhase): nat {
    if s.state == Ready || (s.state == Verifying && PhasesLeft(s.verificationPhase) < PhasesLeft(phase)) then PhaseSize(a, phase)
    else if s.state == Verifying && s.verificationPhase == phase then s.verificationCursor
    else 0
  }

  ghost function PhasesLeft(phase: VerifyPhase): nat {
    if phase == Complete then 0 else PhasesAfter(phase) + 1
  }

  ghost predicate Tracked(o: Observation, a: Authority) {
    forall phase :: VerifiedIn(o.cutover.verified, phase).Some? ==>
      VerifiedIn(o.cutover.verified, phase) == Some(Reached(o.status, a, phase))
  }

  lemma WithVerifiedAt(v: VerifiedCounts, phase: VerifyPhase, count: u32, other: VerifyPhase)
    ensures VerifiedIn(WithVerified(v, phase, count), other)
         == if phase == other && VerifiedIn(v, phase).Some? then Some(count as nat) else VerifiedIn(v, other)
  {
  }

  lemma ReachedMoves(s: Status, t: Status, a: Authority, phase: VerifyPhase, end: nat)
    requires s.state == Verifying && t.state == Verifying && s.verificationPhase != Complete
    requires var total := PhaseSize(a, s.verificationPhase);
             && end <= total
             && t.verificationPhase == (if end == total then NextPhase(s.verificationPhase) else s.verificationPhase)
             && t.verificationCursor == (if end == total then 0 else end)
    requires phase != Complete
    ensures Reached(t, a, phase) == if phase == s.verificationPhase then end else Reached(s, a, phase)
  {
  }

  lemma TrackedMoves(op: Operation, before: Observation, after: Observation, a: Authority)
    requires op.VerifyBatch? && Accepted(op, before, after, a) && Consistent(before.status, a) && Tracked(before, a)
    ensures Tracked(after, a)
  {
    hide IsSha256, IsVerifyDigest, AuthorityAgrees, ImportOnly, WithVerified, Reached, PhaseTotal, PhaseSize, NextPhase, CellsOf, SlotsOf, ResourcesOf;
    var s, t := before.status, after.status;
    TotalIsSize(s, a);
    var end := BatchEnd(PhaseTotal(s, s.verificationPhase), s.verificationCursor, VERIFY_ROWS);
    forall phase | VerifiedIn(after.cutover.verified, phase).Some?
      ensures VerifiedIn(after.cutover.verified, phase) == Some(Reached(t, a, phase))
    {
      WithVerifiedAt(before.cutover.verified, s.verificationPhase, end, phase);
      ReachedMoves(s, t, a, phase, end);
    }
  }

  lemma TrackedStays(op: Operation, before: Observation, after: Observation, a: Authority)
    requires Accepted(op, before, after, a) && Consistent(before.status, a) && Tracked(before, a)
    ensures Tracked(after, a)
  {
    hide IsSha256, IsVerifyDigest, CellsOf, SlotsOf, ResourcesOf, AuthorityAgrees, ImportOnly, StatusMatchesRelease, VerifyPost, ImportedCountsExact, CellSum, SlotSum, ResourceSum, PhaseSize;
    if op.VerifyBatch? {
      TrackedMoves(op, before, after, a);
    } else {
      assert after.cutover.verified == before.cutover.verified;
      forall phase | VerifiedIn(before.cutover.verified, phase).Some?
        ensures Reached(after.status, a, phase) == Reached(before.status, a, phase) {}
    }
  }

  /** Along every accepted run the verified counts follow phase and cursor. */
  lemma {:induction false} RunIsTracked(run: seq<Observation>, ops: seq<Operation>, a: Authority, n: nat)
    requires SumConsistent(a) && IsRun(run, ops, a) && Consistent(run[0].status, a) && Tracked(run[0], a) && n <= |ops|
    ensures Tracked(run[n], a)
  {
    hide Accepted, Consistent, SumConsistent, Tracked;
    if n > 0 {
      RunIsTracked(run, ops, a, n - 1);
      RunCounts(run, ops, a, n - 1);
      TrackedStays(ops[n - 1], run[n - 1], run[n], a);
    }
  }

  /** Nothing has been verified before there is a release. */
  lemma AbsentIsTracked(o: Observation, a: Authority)
    requires o.status.state == Absent && o.cutover.verified == VerifiedCounts(0, 0, 0, 0, 0)
    ensures Tracked(o, a)
  {
  }

  // ----------------------------------------------------------------------------- batches

  ghost function ComponentsIn(ops: seq<Operation>): seq<Component> {
    if ops == [] then [] else
    ComponentsIn(ops[..|ops| - 1]) + if ops[|ops| - 1].ImportComponents? then ops[|ops| - 1].components else []
  }

  ghost function RegionsIn(ops: seq<Operation>): seq<Region> {
    if ops == [] then [] else
    RegionsIn(ops[..|ops| - 1]) + if ops[|ops| - 1].ImportRegions? then ops[|ops| - 1].regions else []
  }

  ghost function ChunksIn(ops: seq<Operation>): seq<Chunk> {
    if ops == [] then [] else
    ChunksIn(ops[..|ops| - 1]) + if ops[|ops| - 1].ImportChunk? then [ops[|ops| - 1].chunk] else []
  }

  /** `batch` is what `rows` holds between two counts. */
  ghost predicate Covers<T>(batch: seq<T>, rows: seq<T>, start: nat, end: nat) {
    start <= end <= |rows| && batch == rows[start..end]
  }

  lemma CoversNext<T>(batch: seq<T>, more: seq<T>, rows: seq<T>, start: nat, mid: nat, end: nat)
    requires Covers(batch, rows, start, mid) && Covers(more, rows, mid, end)
    ensures Covers(batch + more, rows, start, end)
  {
  }

  ghost predicate Submitted(ops: seq<Operation>, s: Status, t: Status, a: Authority) {
    && Covers(ComponentsIn(ops), a.components, s.componentRows, t.componentRows)
    && Covers(RegionsIn(ops), a.regions, s.regionManifestRows, t.regionManifestRows)
    && Covers(ChunksIn(ops), a.chunks, s.chunkRows, t.chunkRows)
  }

  /** One operation submits exactly the rows its counts move over. */
  lemma OneSubmits(op: Operation, before: Observation, after: Observation, a: Authority)
    requires ValidAuthority(a) && Accepted(op, before, after, a)
    ensures var s, t := before.status, after.status;
            && Covers(if op.ImportComponents? then op.components else [], a.components, s.componentRows, t.componentRows)
            && Covers(if op.ImportRegions? then op.regions else [], a.regions, s.regionManifestRows, t.regionManifestRows)
            && Covers(if op.ImportChunk? then [op.chunk] else [], a.chunks, s.chunkRows, t.chunkRows)
  {
    hide AuthorityAgrees, IsVerifyDigest, IsSha256, CellSum, SlotSum, ResourceSum, PhaseTotal, NextPhase, VerifiedIn, WithVerified, StatusMatchesRelease, Batch, ImportedCountsExact;
  }

  /** The batches submitted along a run cover the rows between its ends, without gap or repeat. */
  lemma {:induction false} RunSubmits(run: seq<Observation>, ops: seq<Operation>, a: Authority, n: nat)
    requires ValidAuthority(a) && IsRun(run, ops, a) && n <= |ops|
    requires ImportOnly(run[0].status, a)
    ensures Submitted(ops[..n], run[0].status, run[n].status, a)
  {
    hide Accepted, Covers;
    if n == 0 {
      assert Covers([], a.components, run[0].status.componentRows, run[0].status.componentRows) by { NothingCovers(a.components, run[0].status.componentRows); }
      NothingCovers(a.regions, run[0].status.regionManifestRows);
      NothingCovers(a.chunks, run[0].status.chunkRows);
    } else {
      var op, s, m, t := ops[n - 1], run[0].status, run[n - 1].status, run[n].status;
      RunSubmits(run, ops, a, n - 1);
      OneSubmits(op, run[n - 1], run[n], a);
      assert ops[..n][..n - 1] == ops[..n - 1] && ops[..n][n - 1] == op;
      CoversNext(ComponentsIn(ops[..n - 1]), if op.ImportComponents? then op.components else [], a.components, s.componentRows, m.componentRows, t.componentRows);
      CoversNext(RegionsIn(ops[..n - 1]), if op.ImportRegions? then op.regions else [], a.regions, s.regionManifestRows, m.regionManifestRows, t.regionManifestRows);
      CoversNext(ChunksIn(ops[..n - 1]), if op.ImportChunk? then [op.chunk] else [], a.chunks, s.chunkRows, m.chunkRows, t.chunkRows);
    }
  }

  lemma NothingCovers<T>(rows: seq<T>, at: nat)
    requires at <= |rows|
    ensures Covers([], rows, at, at)
  {
  }

  lemma CoversTheRest<T>(batch: seq<T>, rows: seq<T>, start: nat, end: nat)
    requires Covers(batch, rows, start, end) && end == |rows|
    ensures start <= |rows| && batch == rows[start..]
  {
  }

  /** A run that ends ready has submitted exactly what was not yet imported, acknowledged or not. */
  lemma ReadyRunSubmitsTheRest(run: seq<Observation>, ops: seq<Operation>, a: Authority)
    requires ValidAuthority(a) && IsRun(run, ops, a) && ImportOnly(run[0].status, a)
    requires ReadyPostcondition(run[|ops|].status, a)
    ensures ComponentsIn(ops) == a.components[run[0].status.componentRows..]
    ensures RegionsIn(ops) == a.regions[run[0].status.regionManifestRows..]
    ensures ChunksIn(ops) == a.chunks[run[0].status.chunkRows..]
  {
    hide Accepted, IsSha256, Covers, ComponentsIn, RegionsIn, ChunksIn, StatusMatchesRelease;
    var s, t := run[0].status, run[|ops|].status;
    RunSubmits(run, ops, a, |ops|);
    assert ops[..|ops|] == ops;
    CoversTheRest(ComponentsIn(ops), a.components, s.componentRows, t.componentRows);
    CoversTheRest(RegionsIn(ops), a.regions, s.regionManifestRows, t.regionManifestRows);
    CoversTheRest(ChunksIn(ops), a.chunks, s.chunkRows, t.chunkRows);
  }
}
