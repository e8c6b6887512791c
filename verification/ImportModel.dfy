/**
 The resumable import: the two status projections, their binding to a release, the planner
 and the per-reducer postcondition (scripts/greater-realm-production-import-core.ts).
 */
module ImportModel {
  import opened Wrappers
  import opened SnapshotRules

  const COMPONENT_ROWS: nat := 128
  const REGION_ROWS: nat := 6
  const VERIFY_ROWS: nat := 256
  const MAXIMUM_OPERATIONS: nat := 4096
  const CASTLE_SLOTS: nat := 600

  type u32 = n: nat | n < 0x1_0000_0000
  type u64 = n: nat | n <= MAX_U64

  datatype ReleaseState = Absent | Importing | Verifying | Ready | Canary | Active | Halted | RolledBack

  datatype VerifyPhase =
    | Components | Chunks | Cells | ComponentSlots | Slots | ComponentResources | Resources | ComponentFinalize
    | Complete

  /** The import status: one independent read transaction. */
  datatype Status = Status(
    present: bool,
    atlasId: Option<string>,
    publicReleaseId: Option<string>,
    state: ReleaseState,
    importEpoch: Option<u64>,
    verificationPhase: VerifyPhase,
    verificationCursor: u64,
    verificationDigest: string,
    expectedComponentCount: u32,
    expectedChunkCount: u32,
    expectedCellCount: u32,
    expectedSlotCount: u32,
    expectedResourceNodeCount: u32,
    regionManifestRows: u32,
    componentRows: u64,
    chunkRows: u64,
    cellRows: u64,
    slotRows: u64,
    resourceRows: u64,
    claimRows: u64,
    occupancyRows: u64,
    activationRows: u64,
    publicAtlasRows: u64,
    publicRegionRows: u64,
    workerSystemRows: u64,
    importsExact: bool,
    ready: bool,
    importMutationsCompiled: bool,
    activationMutationsCompiled: bool)

  datatype VerifiedCounts = VerifiedCounts(components: u32, chunks: u32, cells: u32, slots: u32, resources: u32)

  /** The cutover status: the fields the import driver names, and every other field as canonical JSON. */
  datatype Cutover = Cutover(
    importMutationsCompiled: bool,
    activationMutationsCompiled: bool,
    releasePresent: bool,
    releaseRows: u64,
    releaseState: ReleaseState,
    releaseImportsExact: bool,
    releaseReady: bool,
    atlasId: Option<string>,
    publicReleaseId: Option<string>,
    importEpoch: Option<u64>,
    sourceCommit: Option<string>,
    expectedReleaseSha256: Option<string>,
    releaseHeaderSha256: Option<string>,
    verificationPhase: string,
    verificationCursor: u64,
    verificationDigest: Option<string>,
    expectedRegionCount: u32,
    expectedComponentCount: u32,
    expectedChunkCount: u32,
    expectedCellCount: u32,
    expectedSlotCount: u32,
    expectedResourceNodeCount: u32,
    componentExpectedCellCount: u32,
    componentExpectedSlotCount: u32,
    componentExpectedResourceNodeCount: u32,
    importedPassableCellCount: u32,
    verified: VerifiedCounts,
    regionManifestRows: u32,
    componentRows: u64,
    chunkRows: u64,
    cellRows: u64,
    slotRows: u64,
    resourceNodeRows: u64,
    greaterRealmClaimRows: u64,
    greaterRealmOccupancyRows: u64,
    activationRows: u64,
    atlasRows: u64,
    visibleRegionRows: u64,
    workerSystemV2Rows: u64,
    others: map<string, Json>)

  datatype Observation = Observation(status: Status, cutover: Cutover)

  // ------------------------------------------------------------------------- the release

  datatype Component = Component(key: nat, cells: u32, slots: u32, food: u32, wood: u32, stone: u32, gold: u32)
  datatype Region = Region(id: nat)
  datatype Chunk = Chunk(payload: nat, cells: nat, passable: nat, slots: nat, resources: nat)

  datatype Totals = Totals(regions: u32, components: u32, chunks: u32, cells: u32, slots: u32, resources: u32)

  datatype Authority = Authority(
    atlasId: string,
    publicReleaseId: string,
    sourceCommit: string,
    releaseSha256: string,
    headerSha256: string,
    importEpoch: u64,
    totals: Totals,
    components: seq<Component>,
    regions: seq<Region>,
    chunks: seq<Chunk>)

  /** `importAuthority` accepts the manifest. */
  predicate ValidAuthority(a: Authority) {
    && a.totals.regions == |a.regions|
    && a.totals.components == |a.components|
    && a.totals.chunks == |a.chunks|
    && a.totals.slots == CASTLE_SLOTS
  }

  // ----------------------------------------------------------------------------- binding

  function PhaseName(phase: VerifyPhase): string {
    match phase
    case Components => "components"
    case Chunks => "chunks"
    case Cells => "cells"
    case ComponentSlots => "component-slots"
    case Slots => "slots"
    case ComponentResources => "component-resources"
    case Resources => "resources"
    case ComponentFinalize => "component-finalize"
    case Complete => "complete"
  }

  /** The consistency checks of `projectGreaterRealmProductionImportStatus`. */
  predicate ProjectsStatus(s: Status) {
    && s.present == (s.state != Absent)
    && s.present == s.atlasId.Some?
    && s.present == s.publicReleaseId.Some?
    && s.present == s.importEpoch.Some?
    && (!s.present ==>
          && s.expectedComponentCount == 0 && s.expectedChunkCount == 0 && s.expectedCellCount == 0
          && s.expectedSlotCount == 0 && s.expectedResourceNodeCount == 0
          && s.componentRows == 0 && s.chunkRows == 0 && s.cellRows == 0 && s.slotRows == 0 && s.resourceRows == 0)
  }

  predicate StatusMatchesRelease(s: Status, a: Authority) {
    && s.present
    && s.atlasId == Some(a.atlasId) && s.publicReleaseId == Some(a.publicReleaseId) && s.importEpoch == Some(a.importEpoch)
    && s.expectedComponentCount == a.totals.components && s.expectedChunkCount == a.totals.chunks
    && s.expectedCellCount == a.totals.cells && s.expectedSlotCount == a.totals.slots
    && s.expectedResourceNodeCount == a.totals.resources
  }

  /** `assertAuthorityAgreement` */
  predicate AuthorityAgrees(s: Status, c: Cutover, a: Authority) {
    && c.importMutationsCompiled == s.importMutationsCompiled
    && c.activationMutationsCompiled == s.activationMutationsCompiled
    && c.releaseRows == (if s.present then 1 else 0)
    && c.releasePresent == s.present && c.releaseState == s.state
    && c.atlasId == s.atlasId && c.publicReleaseId == s.publicReleaseId && c.importEpoch == s.importEpoch
    && c.componentRows == s.componentRows && c.chunkRows == s.chunkRows && c.cellRows == s.cellRows
    && c.slotRows == s.slotRows && c.resourceNodeRows == s.resourceRows
    && c.regionManifestRows == s.regionManifestRows
    && c.greaterRealmClaimRows == s.claimRows && c.greaterRealmOccupancyRows == s.occupancyRows
    && c.activationRows == s.activationRows && c.atlasRows == s.publicAtlasRows
    && c.visibleRegionRows == s.publicRegionRows && c.workerSystemV2Rows == s.workerSystemRows
    && c.releaseImportsExact == s.importsExact && c.releaseReady == s.ready
    && (if s.present then
          && c.sourceCommit == Some(a.sourceCommit) && c.expectedReleaseSha256 == Some(a.releaseSha256)
          && c.releaseHeaderSha256 == Some(a.headerSha256)
          && c.expectedRegionCount == a.totals.regions && c.expectedComponentCount == a.totals.components
          && c.expectedChunkCount == a.totals.chunks && c.expectedCellCount == a.totals.cells
          && c.expectedSlotCount == a.totals.slots && c.expectedResourceNodeCount == a.totals.resources
          && c.importEpoch == Some(a.importEpoch)
          && c.verificationPhase == PhaseName(s.verificationPhase)
          && c.verificationCursor == s.verificationCursor
          && c.verificationDigest == Some(s.verificationDigest)
        else
          && c.sourceCommit == None && c.expectedReleaseSha256 == None && c.releaseHeaderSha256 == None
          && c.expectedRegionCount == 0 && c.expectedComponentCount == 0 && c.expectedChunkCount == 0
          && c.expectedCellCount == 0 && c.expectedSlotCount == 0 && c.expectedResourceNodeCount == 0)
  }

  /** `assertImportOnlyStatus` */
  predicate ImportOnly(s: Status, a: Authority) {
    && s.importMutationsCompiled && !s.activationMutationsCompiled
    && (s.present ==> StatusMatchesRelease(s, a))
    && s.ready == (s.state == Ready)
    && s.componentRows <= a.totals.components && s.chunkRows <= a.totals.chunks && s.cellRows <= a.totals.cells
    && s.slotRows <= a.totals.slots && s.resourceRows <= a.totals.resources && s.regionManifestRows <= a.totals.regions
    && s.claimRows == 0 && s.occupancyRows == 0 && s.activationRows == 0
    && s.publicAtlasRows == 0 && s.publicRegionRows == 0 && s.workerSystemRows == 0
  }

  /** `inspectBoundImportStatus` returns this observation and does not throw. */
  predicate Bound(o: Observation, a: Authority) {
    ProjectsStatus(o.status) && ImportOnly(o.status, a) && AuthorityAgrees(o.status, o.cutover, a)
  }

  predicate ImportedCountsExact(s: Status, a: Authority) {
    && s.componentRows == a.totals.components && s.regionManifestRows == a.totals.regions
    && s.chunkRows == a.totals.chunks && s.cellRows == a.totals.cells
    && s.slotRows == a.totals.slots && s.resourceRows == a.totals.resources
  }

  predicate ReadyPostcondition(s: Status, a: Authority) {
    && StatusMatchesRelease(s, a)
    && s.state == Ready && s.verificationPhase == Complete && s.verificationCursor == 0
    && IsSha256(s.verificationDigest) && s.importsExact && s.ready
    && ImportedCountsExact(s, a)
    && s.claimRows == 0 && s.occupancyRows == 0 && s.activationRows == 0
    && s.publicAtlasRows == 0 && s.publicRegionRows == 0 && s.workerSystemRows == 0
  }

  // ------------------------------------------------------------------------- the planner

  datatype Operation =
    | Stage
    | ImportComponents(components: seq<Component>)
    | ImportRegions(regions: seq<Region>)
    | ImportChunk(chunk: Chunk)
    | BeginVerification
    | VerifyBatch(requestedRows: nat)
    | Finalize(digest: string)

  datatype Refusal = CountsNotExact | VerifyDigestInvalid | StateNotResumable

  datatype Plan =
    | Submit(operation: Operation)
    | Finished
    | Refuse(why: Refusal)

  function Batch<T>(rows: seq<T>, start: nat, limit: nat): (batch: seq<T>)
    ensures start < |rows| && limit > 0 ==>
              0 < |batch| <= limit && start + |batch| <= |rows| && batch == rows[start..start + |batch|]
  {
    if start >= |rows| then [] else if start + limit <= |rows| then rows[start..start + limit] else rows[start..]
  }

  function PlanNext(s: Status, a: Authority): Plan {
    if !s.present then Submit(Stage)
    else match s.state
      case Importing =>
        if s.componentRows < |a.components| then Submit(ImportComponents(Batch(a.components, s.componentRows, COMPONENT_ROWS)))
        else if s.regionManifestRows < |a.regions| then Submit(ImportRegions(Batch(a.regions, s.regionManifestRows, REGION_ROWS)))
        else if s.chunkRows < |a.chunks| then Submit(ImportChunk(a.chunks[s.chunkRows]))
        else if !s.importsExact then Refuse(CountsNotExact)
        else Submit(BeginVerification)
      case Verifying =>
        if s.verificationPhase != Complete then Submit(VerifyBatch(VERIFY_ROWS))
        else if !IsSha256(s.verificationDigest) then Refuse(VerifyDigestInvalid)
        else Submit(Finalize(s.verificationDigest))
      case Ready => Finished
      case _ => Refuse(StateNotResumable)
  }

  // ------------------------------------------------------------------ the postcondition

  function RowSum(rows: seq<Component>, of: Component -> nat): nat {
    if rows == [] then 0 else RowSum(rows[..|rows| - 1], of) + of(rows[|rows| - 1])
  }

  function CellSum(rows: seq<Component>): nat { RowSum(rows, (c: Component) => c.cells) }
  function SlotSum(rows: seq<Component>): nat { RowSum(rows, (c: Component) => c.slots) }
  function ResourceSum(rows: seq<Component>): nat {
    RowSum(rows, (c: Component) => c.food) + RowSum(rows, (c: Component) => c.wood)
    + RowSum(rows, (c: Component) => c.stone) + RowSum(rows, (c: Component) => c.gold)
  }

  function PhaseTotal(s: Status, phase: VerifyPhase): u32 {
    match phase
    case Chunks => s.expectedChunkCount
    case Cells => s.expectedCellCount
    case Slots => s.expectedSlotCount
    case Resources => s.expectedResourceNodeCount
    case Complete => s.expectedResourceNodeCount
    case _ => s.expectedComponentCount
  }

  function NextPhase(phase: VerifyPhase): VerifyPhase {
    match phase
    case Components => Chunks
    case Chunks => Cells
    case Cells => ComponentSlots
    case ComponentSlots => Slots
    case Slots => ComponentResources
    case ComponentResources => Resources
    case Resources => ComponentFinalize
    case _ => Complete
  }

  /** The count a phase verifies, for the five phases that have one. */
  function VerifiedIn(v: VerifiedCounts, phase: VerifyPhase): Option<nat> {
    match phase
    case Components => Some(v.components)
    case Chunks => Some(v.chunks)
    case Cells => Some(v.cells)
    case Slots => Some(v.slots)
    case Resources => Some(v.resources)
    case _ => None
  }

  function WithVerified(v: VerifiedCounts, phase: VerifyPhase, count: u32): VerifiedCounts {
    match phase
    case Components => v.(components := count)
    case Chunks => v.(chunks := count)
    case Cells => v.(cells := count)
    case Slots => v.(slots := count)
    case Resources => v.(resources := count)
    case _ => v
  }

  function BatchEnd(total: nat, start: nat, requested: nat): (end: nat)
    ensures end <= total
  {
    if start + requested < total then start + requested else total
  }

  predicate StagePost(before: Observation, after: Observation, a: Authority) {
    var s, t, c, d := before.status, after.status, before.cutover, after.cutover;
    && t == s.(present := t.present, atlasId := t.atlasId, publicReleaseId := t.publicReleaseId, state := t.state,
               importEpoch := t.importEpoch, verificationDigest := t.verificationDigest,
               expectedComponentCount := t.expectedComponentCount, expectedChunkCount := t.expectedChunkCount,
               expectedCellCount := t.expectedCellCount, expectedSlotCount := t.expectedSlotCount,
               expectedResourceNodeCount := t.expectedResourceNodeCount)
    && t.present && t.state == Importing && t.atlasId == Some(a.atlasId) && t.publicReleaseId == Some(a.publicReleaseId)
    && t.verificationDigest != s.verificationDigest && IsVerifyDigest(t.verificationDigest)
    && !t.importsExact && !t.ready
    && d.componentExpectedCellCount == 0 && d.componentExpectedSlotCount == 0
    && d.componentExpectedResourceNodeCount == 0 && d.importedPassableCellCount == 0
    && d.verified == c.verified
  }

  predicate ComponentsPost(rows: seq<Component>, before: Observation, after: Observation) {
    var s, t, c, d := before.status, after.status, before.cutover, after.cutover;
    && rows != []
    && t == s.(componentRows := t.componentRows)
    && t.componentRows == s.componentRows + |rows|
    && d.componentExpectedCellCount == c.componentExpectedCellCount + CellSum(rows)
    && d.componentExpectedSlotCount == c.componentExpectedSlotCount + SlotSum(rows)
    && d.componentExpectedResourceNodeCount == c.componentExpectedResourceNodeCount + ResourceSum(rows)
    && d.verified == c.verified
  }

  predicate RegionsPost(rows: seq<Region>, before: Observation, after: Observation) {
    var s, t := before.status, after.status;
    && rows != []
    && t == s.(regionManifestRows := t.regionManifestRows)
    && t.regionManifestRows == s.regionManifestRows + |rows|
    && after.cutover.verified == before.cutover.verified
  }

  predicate ChunkPost(before: Observation, after: Observation, a: Authority) {
    var s, t := before.status, after.status;
    && s.chunkRows < |a.chunks|
    && var chunk := a.chunks[s.chunkRows];
    && t == s.(chunkRows := t.chunkRows, cellRows := t.cellRows, slotRows := t.slotRows, resourceRows := t.resourceRows,
               importsExact := t.importsExact, verificationDigest := t.verificationDigest)
    && t.chunkRows == s.chunkRows + 1 && t.cellRows == s.cellRows + chunk.cells
    && t.slotRows == s.slotRows + chunk.slots && t.resourceRows == s.resourceRows + chunk.resources
    && t.importsExact == ImportedCountsExact(t, a)
    && t.verificationDigest != s.verificationDigest && IsVerifyDigest(t.verificationDigest)
    && after.cutover.importedPassableCellCount == before.cutover.importedPassableCellCount + chunk.passable
    && after.cutover.verified == before.cutover.verified
  }

  predicate BeginPost(before: Observation, after: Observation) {
    var s, t := before.status, after.status;
    && t == s.(state := t.state, verificationPhase := t.verificationPhase, verificationCursor := t.verificationCursor,
               verificationDigest := t.verificationDigest)
    && s.state == Importing && s.importsExact
    && t.state == Verifying && t.verificationPhase == Components && t.verificationCursor == 0
    && t.verificationDigest != s.verificationDigest && IsVerifyDigest(t.verificationDigest)
    && after.cutover.verified == before.cutover.verified
  }

  predicate VerifyPost(requested: nat, before: Observation, after: Observation) {
    var s, t, phase, start := before.status, after.status, before.status.verificationPhase, before.status.verificationCursor;
    var total := PhaseTotal(s, phase);
    var end := BatchEnd(total, start, requested);
    && s.state == Verifying && phase != Complete && requested >= 1 && start <= total
    && (VerifiedIn(before.cutover.verified, phase).Some? ==> VerifiedIn(before.cutover.verified, phase) == Some(start))
    && t == s.(verificationPhase := t.verificationPhase, verificationCursor := t.verificationCursor,
               verificationDigest := t.verificationDigest)
    && t.verificationPhase == (if end == total then NextPhase(phase) else phase)
    && t.verificationCursor == (if end == total then 0 else end)
    && IsVerifyDigest(t.verificationDigest)
    && (end == start || t.verificationDigest != s.verificationDigest)
    && after.cutover.verified == WithVerified(before.cutover.verified, phase, end)
  }

  predicate FinalizePost(before: Observation, after: Observation) {
    var s, t := before.status, after.status;
    && t == s.(state := t.state, ready := t.ready)
    && s.state == Verifying && s.verificationPhase == Complete
    && t.state == Ready && t.ready
    && after.cutover.verified == before.cutover.verified
  }

  /** `importOperationPostcondition` */
  predicate Postcondition(op: Operation, before: Observation, after: Observation, a: Authority) {
    match op
    case Stage => StagePost(before, after, a)
    case ImportComponents(rows) => ComponentsPost(rows, before, after)
    case ImportRegions(rows) => RegionsPost(rows, before, after)
    case ImportChunk(_) => ChunkPost(before, after, a)
    case BeginVerification => BeginPost(before, after)
    case VerifyBatch(requested) => VerifyPost(requested, before, after)
    case Finalize(_) => FinalizePost(before, after)
  }
}
