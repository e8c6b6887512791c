/**
 The two proofs a submitted operation must pass: the driver's postcondition, and the
 expected-after predicate it hands to the journal. They are written independently.
 */
module ImportGates {
  import opened Wrappers
  import opened SnapshotRules
  import opened ImportModel

  // ------------------------------------------------------- snapshots, field by field

  datatype StatusField =
    | Present | AtlasId | PublicReleaseId | State | ImportEpoch
    | VerificationPhase | VerificationCursor | VerificationDigest
    | ExpectedComponentCount | ExpectedChunkCount | ExpectedCellCount | ExpectedSlotCount | ExpectedResourceNodeCount
    | RegionManifestRows | ComponentRows | ChunkRows | CellRows | SlotRows | ResourceRows
    | ClaimRows | OccupancyRows | ActivationRows | PublicAtlasRows | PublicRegionRows | WorkerSystemRows
    | ImportsExact | ReadyFlag | ImportMutationsCompiled | ActivationMutationsCompiled

  datatype AuditField =
    | AImportMutationsCompiled | AActivationMutationsCompiled | AReleasePresent | AReleaseRows | AReleaseState
    | AReleaseImportsExact | AReleaseReady | AAtlasId | APublicReleaseId | AImportEpoch
    | ASourceCommit | AExpectedReleaseSha256 | AReleaseHeaderSha256
    | AVerificationPhase | AVerificationCursor | AVerificationDigest
    | AExpectedRegionCount | AExpectedComponentCount | AExpectedChunkCount | AExpectedCellCount | AExpectedSlotCount
    | AExpectedResourceNodeCount
    | AComponentExpectedCellCount | AComponentExpectedSlotCount | AComponentExpectedResourceNodeCount
    | AImportedPassableCellCount
    | AVerifiedComponentCount | AVerifiedChunkCount | AVerifiedCellCount | AVerifiedSlotCount | AVerifiedResourceNodeCount
    | ARegionManifestRows | AComponentRows | AChunkRows | ACellRows | ASlotRows | AResourceNodeRows
    | AClaimRows | AOccupancyRows | AActivationRows | AAtlasRows | AVisibleRegionRows | AWorkerSystemV2Rows
    | AOther(name: string)

  /** `canonicalValue`: undefined becomes null, a bigint its decimal digits. */
  function Text(value: Option<string>): Json { if value.None? then JNull else JStr(value.value) }
  function Big(n: nat): Json { JStr(Decimal(n)) }
  function OptionalBig(value: Option<u64>): Json { if value.None? then JNull else Big(value.value) }

  function StateName(state: ReleaseState): string {
    match state
    case Absent => "absent"
    case Importing => "importing"
    case Verifying => "verifying"
    case Ready => "ready"
    case Canary => "canary"
    case Active => "active"
    case Halted => "halted"
    case RolledBack => "rolled-back"
  }

  function StatusValue(s: Status, field: StatusField): Json {
    match field
    case Present => JBool(s.present)
    case AtlasId => Text(s.atlasId)
    case PublicReleaseId => Text(s.publicReleaseId)
    case State => JStr(StateName(s.state))
    case ImportEpoch => OptionalBig(s.importEpoch)
    case VerificationPhase => JStr(PhaseName(s.verificationPhase))
    case VerificationCursor => Big(s.verificationCursor)
    case VerificationDigest => JStr(s.verificationDigest)
    case ExpectedComponentCount => JNum(s.expectedComponentCount)
    case ExpectedChunkCount => JNum(s.expectedChunkCount)
    case ExpectedCellCount => JNum(s.expectedCellCount)
    case ExpectedSlotCount => JNum(s.expectedSlotCount)
    case ExpectedResourceNodeCount => JNum(s.expectedResourceNodeCount)
    case RegionManifestRows => JNum(s.regionManifestRows)
    case ComponentRows => Big(s.componentRows)
    case ChunkRows => Big(s.chunkRows)
    case CellRows => Big(s.cellRows)
    case SlotRows => Big(s.slotRows)
    case ResourceRows => Big(s.resourceRows)
    case ClaimRows => Big(s.claimRows)
    case OccupancyRows => Big(s.occupancyRows)
    case ActivationRows => Big(s.activationRows)
    case PublicAtlasRows => Big(s.publicAtlasRows)
    case PublicRegionRows => Big(s.publicRegionRows)
    case WorkerSystemRows => Big(s.workerSystemRows)
    case ImportsExact => JBool(s.importsExact)
    case ReadyFlag => JBool(s.ready)
    case ImportMutationsCompiled => JBool(s.importMutationsCompiled)
    case ActivationMutationsCompiled => JBool(s.activationMutationsCompiled)
  }

  function AuditValue(c: Cutover, field: AuditField): Json {
    match field
    case AImportMutationsCompiled => JBool(c.importMutationsCompiled)
    case AActivationMutationsCompiled => JBool(c.activationMutationsCompiled)
    case AReleasePresent => JBool(c.releasePresent)
    case AReleaseRows => Big(c.releaseRows)
    case AReleaseState => JStr(StateName(c.releaseState))
    case AReleaseImportsExact => JBool(c.releaseImportsExact)
    case AReleaseReady => JBool(c.releaseReady)
    case AAtlasId => Text(c.atlasId)
    case APublicReleaseId => Text(c.publicReleaseId)
    case AImportEpoch => OptionalBig(c.importEpoch)
    case ASourceCommit => Text(c.sourceCommit)
    case AExpectedReleaseSha256 => Text(c.expectedReleaseSha256)
    case AReleaseHeaderSha256 => Text(c.releaseHeaderSha256)
    case AVerificationPhase => JStr(c.verificationPhase)
    case AVerificationCursor => Big(c.verificationCursor)
    case AVerificationDigest => Text(c.verificationDigest)
    case AExpectedRegionCount => JNum(c.expectedRegionCount)
    case AExpectedComponentCount => JNum(c.expectedComponentCount)
    case AExpectedChunkCount => JNum(c.expectedChunkCount)
    case AExpectedCellCount => JNum(c.expectedCellCount)
    case AExpectedSlotCount => JNum(c.expectedSlotCount)
    case AExpectedResourceNodeCount => JNum(c.expectedResourceNodeCount)
    case AComponentExpectedCellCount => JNum(c.componentExpectedCellCount)
    case AComponentExpectedSlotCount => JNum(c.componentExpectedSlotCount)
    case AComponentExpectedResourceNodeCount => JNum(c.componentExpectedResourceNodeCount)
    case AImportedPassableCellCount => JNum(c.importedPassableCellCount)
    case AVerifiedComponentCount => JNum(c.verified.components)
    case AVerifiedChunkCount => JNum(c.verified.chunks)
    case AVerifiedCellCount => JNum(c.verified.cells)
    case AVerifiedSlotCount => JNum(c.verified.slots)
    case AVerifiedResourceNodeCount => JNum(c.verified.resources)
    case ARegionManifestRows => JNum(c.regionManifestRows)
    case AComponentRows => Big(c.componentRows)
    case AChunkRows => Big(c.chunkRows)
    case ACellRows => Big(c.cellRows)
    case ASlotRows => Big(c.slotRows)
    case AResourceNodeRows => Big(c.resourceNodeRows)
    case AClaimRows => Big(c.greaterRealmClaimRows)
    case AOccupancyRows => Big(c.greaterRealmOccupancyRows)
    case AActivationRows => Big(c.activationRows)
    case AAtlasRows => Big(c.atlasRows)
    case AVisibleRegionRows => Big(c.visibleRegionRows)
    case AWorkerSystemV2Rows => Big(c.workerSystemV2Rows)
    case AOther(name) => if name in c.others then c.others[name] else JNull
  }

  function StatusMap(s: Status): map<StatusField, Json> {
    map field: StatusField | true :: StatusValue(s, field)
  }

  function AuditFields(c: Cutover): (fields: set<AuditField>)
    ensures forall field :: field in fields <==> !field.AOther? || field.name in c.others
  {
    NamedAuditFields() + set name | name in c.others :: AOther(name)
  }

  function AuditMap(c: Cutover): map<AuditField, Json> {
    map field | field in AuditFields(c) :: AuditValue(c, field)
  }

  function NamedAuditFields(): (fields: set<AuditField>)
    ensures forall field :: field in fields <==> !field.AOther?
  {
    {AImportMutationsCompiled, AActivationMutationsCompiled, AReleasePresent, AReleaseRows, AReleaseState,
     AReleaseImportsExact, AReleaseReady, AAtlasId, APublicReleaseId, AImportEpoch,
     ASourceCommit, AExpectedReleaseSha256, AReleaseHeaderSha256,
     AVerificationPhase, AVerificationCursor, AVerificationDigest,
     AExpectedRegionCount, AExpectedComponentCount, AExpectedChunkCount, AExpectedCellCount, AExpectedSlotCount,
     AExpectedResourceNodeCount,
     AComponentExpectedCellCount, AComponentExpectedSlotCount, AComponentExpectedResourceNodeCount,
     AImportedPassableCellCount,
     AVerifiedComponentCount, AVerifiedChunkCount, AVerifiedCellCount, AVerifiedSlotCount, AVerifiedResourceNodeCount,
     ARegionManifestRows, AComponentRows, AChunkRows, ACellRows, ASlotRows, AResourceNodeRows,
     AClaimRows, AOccupancyRows, AActivationRows, AAtlasRows, AVisibleRegionRows, AWorkerSystemV2Rows}
  }

  // -------------------------------------------------------- the expected-after predicate

  datatype Rules = Rules(status: map<StatusField, Rule>, audit: map<AuditField, Rule>)

  const DigestChanges := Matches(VerifyDigest, true)

  /** `importExpectedAfterPredicate` */
  function ExpectedAfter(op: Operation, before: Observation, a: Authority): Rules {
    match op
    case Stage => StageRules(a)
    case ImportComponents(rows) =>
      Rules(map[ComponentRows := IntegerDelta(|rows|)],
            map[AComponentRows := IntegerDelta(|rows|),
                AComponentExpectedCellCount := IntegerDelta(CellSum(rows)),
                AComponentExpectedSlotCount := IntegerDelta(SlotSum(rows)),
                AComponentExpectedResourceNodeCount := IntegerDelta(ResourceSum(rows))])
    case ImportRegions(rows) =>
      Rules(map[RegionManifestRows := IntegerDelta(|rows|)], map[ARegionManifestRows := IntegerDelta(|rows|)])
    case ImportChunk(chunk) => ChunkRules(chunk, before.status, a)
    case BeginVerification =>
      Rules(map[State := Equals(JStr("verifying")), VerificationPhase := Equals(JStr("components")),
                VerificationCursor := Equals(Big(0)), VerificationDigest := DigestChanges],
            map[AReleaseState := Equals(JStr("verifying")), AVerificationPhase := Equals(JStr("components")),
                AVerificationCursor := Equals(Big(0)), AVerificationDigest := DigestChanges])
    case VerifyBatch(requested) => VerifyRules(requested, before.status)
    case Finalize(_) =>
      Rules(map[State := Equals(JStr("ready")), ReadyFlag := Equals(JBool(true))],
            map[AReleaseState := Equals(JStr("ready")), AReleaseReady := Equals(JBool(true))])
  }

  function StageRules(a: Authority): Rules {
    Rules(map[Present := Equals(JBool(true)), State := Equals(JStr("importing")),
              AtlasId := Equals(JStr(a.atlasId)), PublicReleaseId := Equals(JStr(a.publicReleaseId)),
              ImportEpoch := Equals(Big(a.importEpoch)), VerificationDigest := DigestChanges,
              ExpectedComponentCount := Equals(JNum(a.totals.components)), ExpectedChunkCount := Equals(JNum(a.totals.chunks)),
              ExpectedCellCount := Equals(JNum(a.totals.cells)), ExpectedSlotCount := Equals(JNum(a.totals.slots)),
              ExpectedResourceNodeCount := Equals(JNum(a.totals.resources))],
          StageMirrorRules(a) + StageExpectationRules(a))
  }

  function StageMirrorRules(a: Authority): map<AuditField, Rule> {
    map[AReleasePresent := Equals(JBool(true)), AReleaseRows := IntegerDelta(1), AReleaseState := Equals(JStr("importing")),
        AAtlasId := Equals(JStr(a.atlasId)), APublicReleaseId := Equals(JStr(a.publicReleaseId)),
        AImportEpoch := Equals(Big(a.importEpoch)), AVerificationDigest := DigestChanges]
  }

  function StageExpectationRules(a: Authority): map<AuditField, Rule> {
    map[AExpectedComponentCount := Equals(JNum(a.totals.components)), AExpectedChunkCount := Equals(JNum(a.totals.chunks)),
        AExpectedCellCount := Equals(JNum(a.totals.cells)), AExpectedSlotCount := Equals(JNum(a.totals.slots)),
        AExpectedResourceNodeCount := Equals(JNum(a.totals.resources)),
        ASourceCommit := Equals(JStr(a.sourceCommit)), AExpectedReleaseSha256 := Equals(JStr(a.releaseSha256)),
        AReleaseHeaderSha256 := Equals(JStr(a.headerSha256))]
  }

  /** There is no rule for the verification digest. */
  function ChunkRules(chunk: Chunk, s: Status, a: Authority): Rules {
    var exactAfter :=
      && s.chunkRows + 1 == a.totals.chunks && s.cellRows + chunk.cells == a.totals.cells
      && s.slotRows + chunk.slots == a.totals.slots && s.resourceRows + chunk.resources == a.totals.resources
      && s.componentRows == a.totals.components && s.regionManifestRows == a.totals.regions;
    Rules(map[ChunkRows := IntegerDelta(1), CellRows := IntegerDelta(chunk.cells), SlotRows := IntegerDelta(chunk.slots),
              ResourceRows := IntegerDelta(chunk.resources), ImportsExact := Equals(JBool(exactAfter))],
          map[AChunkRows := IntegerDelta(1), ACellRows := IntegerDelta(chunk.cells), ASlotRows := IntegerDelta(chunk.slots),
              AResourceNodeRows := IntegerDelta(chunk.resources), AReleaseImportsExact := Equals(JBool(exactAfter)),
              AImportedPassableCellCount := IntegerDelta(chunk.passable)])
  }

  function VerifiedField(phase: VerifyPhase): Option<AuditField> {
    match phase
    case Components => Some(AVerifiedComponentCount)
    case Chunks => Some(AVerifiedChunkCount)
    case Cells => Some(AVerifiedCellCount)
    case Slots => Some(AVerifiedSlotCount)
    case Resources => Some(AVerifiedResourceNodeCount)
    case _ => None
  }

  function VerifyRules(requested: nat, s: Status): Rules {
    var phase, start := s.verificationPhase, s.verificationCursor;
    var total := PhaseTotal(s, phase);
    var end := BatchEnd(total, start, requested);
    var next := JStr(PhaseName(if end == total then NextPhase(phase) else phase));
    var cursor := Big(if end == total then 0 else end);
    var audit := map[AVerificationPhase := Equals(next), AVerificationCursor := Equals(cursor),
                     AVerificationDigest := Matches(VerifyDigest, end != start)];
    Rules(map[VerificationPhase := Equals(next), VerificationCursor := Equals(cursor),
              VerificationDigest := Matches(VerifyDigest, end != start)],
          if VerifiedField(phase).None? then audit else audit[VerifiedField(phase).value := Equals(JNum(end))])
  }

  /** `expectedAfterMatches` on the two projections. */
  predicate GateHolds(rules: Rules, before: Observation, after: Observation) {
    && RulesMatch(StatusMap(before.status), StatusMap(after.status), rules.status)
    && RulesMatch(AuditMap(before.cutover), AuditMap(after.cutover), rules.audit)
  }

  // ------------------------------------------------------------------ reading the gates

  /** What one rule, or the absence of one, says of a field both snapshots have. */
  predicate ValuePasses(left: Json, right: Json, rule: Option<Rule>) {
    match rule
    case None => left == right
    case Some(Equals(expected)) => right == expected
    case Some(Changed) => left != right
    case Some(IntegerDelta(delta)) =>
      var l, r := DecimalInteger(left), DecimalInteger(right);
      l.Some? && r.Some? && r.value - l.value == delta
    case Some(Matches(pattern, mustChange)) => MatchesPattern(right, pattern) && (mustChange ==> left != right)
  }

  function RuleFor<K>(rules: map<K, Rule>, field: K): Option<Rule> {
    if field in rules then Some(rules[field]) else None
  }

  lemma StatusPasses(before: Status, after: Status, rules: map<StatusField, Rule>, field: StatusField)
    requires RulesMatch(StatusMap(before), StatusMap(after), rules)
    ensures ValuePasses(StatusValue(before, field), StatusValue(after, field), RuleFor(rules, field))
  {
    hide MatchesPattern, DecimalInteger, StatusValue;
    assert PathMatches(StatusMap(before), StatusMap(after), rules, field);
  }

  lemma AuditPasses(before: Cutover, after: Cutover, rules: map<AuditField, Rule>, field: AuditField)
    requires RulesMatch(AuditMap(before), AuditMap(after), rules) && !field.AOther?
    ensures ValuePasses(AuditValue(before, field), AuditValue(after, field), RuleFor(rules, field))
  {
    hide MatchesPattern, DecimalInteger, AuditValue, NamedAuditFields;
    assert field in AuditMap(before);
    assert PathMatches(AuditMap(before), AuditMap(after), rules, field);
  }

  lemma AuditUnruled(before: Cutover, after: Cutover, rules: map<AuditField, Rule>, field: AuditField)
    requires RulesMatch(AuditMap(before), AuditMap(after), rules) && !field.AOther? && field !in rules
    ensures AuditValue(before, field) == AuditValue(after, field)
  {
    hide RulesMatch, AuditMap, AuditValue, MatchesPattern, DecimalInteger;
    AuditPasses(before, after, rules, field);
  }

  lemma BigInjective(m: nat, n: nat)
    requires Big(m) == Big(n)
    ensures m == n
  {
    assert DecimalValue(Decimal(m)) == DecimalValue(Decimal(n));
  }

  lemma BigReads(n: nat)
    ensures DecimalInteger(Big(n)) == Some(n)
  {
    assert Big(n) == JStr(Decimal(n)) && IsDecimal(Decimal(n)) && DecimalValue(Decimal(n)) == n;
  }

  ghost predicate Same(s: Status, t: Status, field: StatusField) {
    StatusValue(s, field) == StatusValue(t, field)
  }

  lemma NamesDiffer()
    ensures forall x, y :: StateName(x) == StateName(y) ==> x == y
    ensures forall x, y :: PhaseName(x) == PhaseName(y) ==> x == y
  {
    forall x, y | StateName(x) == StateName(y) ensures x == y {
      assert |StateName(x)| == |StateName(y)| && StateName(x)[0] == StateName(y)[0];
    }
    forall x, y | PhaseName(x) == PhaseName(y) ensures x == y {
      assert |PhaseName(x)| == |PhaseName(y)| && PhaseName(x)[0] == PhaseName(y)[0] && PhaseName(x)[2] == PhaseName(y)[2];
    }
  }

  lemma CountValues(s: Status)
    ensures StatusValue(s, VerificationCursor) == Big(s.verificationCursor)
    ensures StatusValue(s, ComponentRows) == Big(s.componentRows)
    ensures StatusValue(s, ChunkRows) == Big(s.chunkRows)
    ensures StatusValue(s, CellRows) == Big(s.cellRows)
    ensures StatusValue(s, SlotRows) == Big(s.slotRows)
    ensures StatusValue(s, ResourceRows) == Big(s.resourceRows)
  {
    hide Big, Text, OptionalBig, StateName, PhaseName;
  }

  lemma CountsDetermined(s: Status, t: Status)
    requires forall field :: Same(s, t, field)
    ensures s.verificationCursor == t.verificationCursor
    ensures s.componentRows == t.componentRows
    ensures s.chunkRows == t.chunkRows
    ensures s.cellRows == t.cellRows
    ensures s.slotRows == t.slotRows
    ensures s.resourceRows == t.resourceRows
  {
    hide Big, StatusValue;
    CountValues(s);
    CountValues(t);
    assert Same(s, t, VerificationCursor);
    BigInjective(s.verificationCursor, t.verificationCursor);
    assert Same(s, t, ComponentRows);
    BigInjective(s.componentRows, t.componentRows);
    assert Same(s, t, ChunkRows);
    BigInjective(s.chunkRows, t.chunkRows);
    assert Same(s, t, CellRows);
    BigInjective(s.cellRows, t.cellRows);
    assert Same(s, t, SlotRows);
    BigInjective(s.slotRows, t.slotRows);
    assert Same(s, t, ResourceRows);
    BigInjective(s.resourceRows, t.resourceRows);
  }

  lemma PopulationValues(s: Status)
    ensures StatusValue(s, ClaimRows) == Big(s.claimRows)
    ensures StatusValue(s, OccupancyRows) == Big(s.occupancyRows)
    ensures StatusValue(s, ActivationRows) == Big(s.activationRows)
    ensures StatusValue(s, PublicAtlasRows) == Big(s.publicAtlasRows)
    ensures StatusValue(s, PublicRegionRows) == Big(s.publicRegionRows)
    ensures StatusValue(s, WorkerSystemRows) == Big(s.workerSystemRows)
  {
    hide Big, Text, OptionalBig, StateName, PhaseName;
  }

  lemma PopulationDetermined(s: Status, t: Status)
    requires forall field :: Same(s, t, field)
    ensures s.claimRows == t.claimRows
    ensures s.occupancyRows == t.occupancyRows
    ensures s.activationRows == t.activationRows
    ensures s.publicAtlasRows == t.publicAtlasRows
    ensures s.publicRegionRows == t.publicRegionRows
    ensures s.workerSystemRows == t.workerSystemRows
  {
    hide Big, StatusValue;
    PopulationValues(s);
    PopulationValues(t);
    assert Same(s, t, ClaimRows);
    BigInjective(s.claimRows, t.claimRows);
    assert Same(s, t, OccupancyRows);
    BigInjective(s.occupancyRows, t.occupancyRows);
    assert Same(s, t, ActivationRows);
    BigInjective(s.activationRows, t.activationRows);
    assert Same(s, t, PublicAtlasRows);
    BigInjective(s.publicAtlasRows, t.publicAtlasRows);
    assert Same(s, t, PublicRegionRows);
    BigInjective(s.publicRegionRows, t.publicRegionRows);
    assert Same(s, t, WorkerSystemRows);
    BigInjective(s.workerSystemRows, t.workerSystemRows);
  }

  lemma IdentityDetermined(s: Status, t: Status)
    requires forall field :: Same(s, t, field)
    ensures s.present == t.present
    ensures s.atlasId == t.atlasId
    ensures s.publicReleaseId == t.publicReleaseId
    ensures s.state == t.state
    ensures s.importEpoch == t.importEpoch
    ensures s.verificationPhase == t.verificationPhase
    ensures s.verificationDigest == t.verificationDigest
  {
    hide StateName, PhaseName, Decimal, DecimalValue, IsDecimal;
    NamesDiffer();
    assert Same(s, t, Present);
    assert Same(s, t, AtlasId);
    assert Same(s, t, PublicReleaseId);
    assert Same(s, t, State);
    assert Same(s, t, ImportEpoch);
    if s.importEpoch.Some? && t.importEpoch.Some? { BigInjective(s.importEpoch.value, t.importEpoch.value); }
    assert Same(s, t, VerificationPhase);
    assert Same(s, t, VerificationDigest);
  }

  lemma ExpectationsDetermined(s: Status, t: Status)
    requires forall field :: Same(s, t, field)
    ensures s.expectedComponentCount == t.expectedComponentCount && s.expectedChunkCount == t.expectedChunkCount
    ensures s.expectedCellCount == t.expectedCellCount && s.expectedSlotCount == t.expectedSlotCount
    ensures s.expectedResourceNodeCount == t.expectedResourceNodeCount
  {
    hide Big, Text, OptionalBig, StateName, PhaseName;
    assert Same(s, t, ExpectedComponentCount) && Same(s, t, ExpectedChunkCount) && Same(s, t, ExpectedCellCount);
    assert Same(s, t, ExpectedSlotCount) && Same(s, t, ExpectedResourceNodeCount);
  }

  lemma FlagsDetermined(s: Status, t: Status)
    requires forall field :: Same(s, t, field)
    ensures s.regionManifestRows == t.regionManifestRows && s.importsExact == t.importsExact && s.ready == t.ready
    ensures s.importMutationsCompiled == t.importMutationsCompiled
    ensures s.activationMutationsCompiled == t.activationMutationsCompiled
  {
    hide Big, Text, OptionalBig, StateName, PhaseName;
    assert Same(s, t, RegionManifestRows) && Same(s, t, ImportsExact) && Same(s, t, ReadyFlag);
    assert Same(s, t, ImportMutationsCompiled) && Same(s, t, ActivationMutationsCompiled);
  }

  /** The canonical fields determine the status. */
  lemma StatusDetermined(s: Status, t: Status)
    requires forall field :: Same(s, t, field)
    ensures s == t
  {
    hide Same;
    CountsDetermined(s, t);
    PopulationDetermined(s, t);
    IdentityDetermined(s, t);
    ExpectationsDetermined(s, t);
    FlagsDetermined(s, t);
  }

  /** Outside its rules a gate changes nothing. */
  lemma OnlyRuledFieldsChange(before: Status, after: Status, rules: map<StatusField, Rule>, expected: Status)
    requires RulesMatch(StatusMap(before), StatusMap(after), rules)
    requires forall field | field in rules :: Same(expected, after, field)
    requires forall field | field !in rules :: Same(expected, before, field)
    ensures after == expected
  {
    hide StatusValue, RulesMatch;
    forall field ensures Same(expected, after, field) {
      StatusPasses(before, after, rules, field);
    }
    StatusDetermined(expected, after);
  }

  lemma BigMoves(left: nat, right: nat, delta: int)
    requires ValuePasses(Big(left), Big(right), Some(IntegerDelta(delta)))
    ensures right == left + delta
  {
    BigReads(left);
    BigReads(right);
  }

  lemma NumberMoves(left: u32, right: u32, delta: int)
    requires ValuePasses(JNum(left), JNum(right), Some(IntegerDelta(delta)))
    ensures right == left + delta
  {
  }

  lemma VerifiedUnruled(before: Cutover, after: Cutover, rules: map<AuditField, Rule>)
    requires RulesMatch(AuditMap(before), AuditMap(after), rules)
    requires AVerifiedComponentCount !in rules && AVerifiedChunkCount !in rules && AVerifiedCellCount !in rules
    requires AVerifiedSlotCount !in rules && AVerifiedResourceNodeCount !in rules
    ensures after.verified == before.verified
  {
    hide RulesMatch, AuditMap, AuditValue;
    VerifiedValues(before);
    VerifiedValues(after);
    AuditUnruled(before, after, rules, AVerifiedComponentCount);
    AuditUnruled(before, after, rules, AVerifiedChunkCount);
    AuditUnruled(before, after, rules, AVerifiedCellCount);
    AuditUnruled(before, after, rules, AVerifiedSlotCount);
    AuditUnruled(before, after, rules, AVerifiedResourceNodeCount);
  }

  // ---------------------------------------------------------------- the gates agree

  lemma ComponentsAudit(rows: seq<Component>, before: Observation, after: Observation, a: Authority)
    requires GateHolds(ExpectedAfter(ImportComponents(rows), before, a), before, after)
    ensures var c, d := before.cutover, after.cutover;
            && d.componentExpectedCellCount == c.componentExpectedCellCount + CellSum(rows)
            && d.componentExpectedSlotCount == c.componentExpectedSlotCount + SlotSum(rows)
            && d.componentExpectedResourceNodeCount == c.componentExpectedResourceNodeCount + ResourceSum(rows)
            && d.verified == c.verified
  {
    hide RulesMatch, StatusMap, AuditMap, CellSum, SlotSum, ResourceSum, MatchesPattern, ValuePasses;
    var rules := ExpectedAfter(ImportComponents(rows), before, a).audit;
    var c, d := before.cutover, after.cutover;
    AuditPasses(c, d, rules, AComponentExpectedCellCount);
    NumberMoves(c.componentExpectedCellCount, d.componentExpectedCellCount, CellSum(rows));
    AuditPasses(c, d, rules, AComponentExpectedSlotCount);
    NumberMoves(c.componentExpectedSlotCount, d.componentExpectedSlotCount, SlotSum(rows));
    AuditPasses(c, d, rules, AComponentExpectedResourceNodeCount);
    NumberMoves(c.componentExpectedResourceNodeCount, d.componentExpectedResourceNodeCount, ResourceSum(rows));
    VerifiedUnruled(c, d, rules);
  }

  lemma ComponentsGateProves(rows: seq<Component>, before: Observation, after: Observation, a: Authority)
    requires rows != [] && GateHolds(ExpectedAfter(ImportComponents(rows), before, a), before, after)
    ensures ComponentsPost(rows, before, after)
  {
    hide RulesMatch, StatusMap, AuditMap, CellSum, SlotSum, ResourceSum, ValuePasses, Big;
    var rules := ExpectedAfter(ImportComponents(rows), before, a).status;
    var s, t := before.status, after.status;
    OnlyRuledFieldsChange(s, t, rules, s.(componentRows := t.componentRows));
    StatusPasses(s, t, rules, ComponentRows);
    BigMoves(s.componentRows, t.componentRows, |rows|);
    ComponentsAudit(rows, before, after, a);
  }

  lemma RegionsGateProves(rows: seq<Region>, before: Observation, after: Observation, a: Authority)
    requires rows != [] && GateHolds(ExpectedAfter(ImportRegions(rows), before, a), before, after)
    ensures RegionsPost(rows, before, after)
  {
    hide RulesMatch, StatusMap, AuditMap, ValuePasses, Big;
    var rules := ExpectedAfter(ImportRegions(rows), before, a);
    var s, t := before.status, after.status;
    OnlyRuledFieldsChange(s, t, rules.status, s.(regionManifestRows := t.regionManifestRows));
    StatusPasses(s, t, rules.status, RegionManifestRows);
    NumberMoves(s.regionManifestRows, t.regionManifestRows, |rows|);
    VerifiedUnruled(before.cutover, after.cutover, rules.audit);
  }

  lemma StateNamed(x: ReleaseState, y: ReleaseState)
    ensures StateName(x) == StateName(y) ==> x == y
  {
    NamesDiffer();
  }

  lemma PhaseNamed(x: VerifyPhase, y: VerifyPhase)
    ensures PhaseName(x) == PhaseName(y) ==> x == y
  {
    NamesDiffer();
  }

  /** A gate that writes phase, cursor and digest, as both verification reducers do. */
  lemma VerificationWritten(s: Status, t: Status, rules: map<StatusField, Rule>, phase: VerifyPhase, cursor: nat, mustChange: bool)
    requires RulesMatch(StatusMap(s), StatusMap(t), rules)
    requires RuleFor(rules, VerificationPhase) == Some(Equals(JStr(PhaseName(phase))))
    requires RuleFor(rules, VerificationCursor) == Some(Equals(Big(cursor)))
    requires RuleFor(rules, VerificationDigest) == Some(Matches(VerifyDigest, mustChange))
    ensures t.verificationPhase == phase && t.verificationCursor == cursor
    ensures IsVerifyDigest(t.verificationDigest) && (mustChange ==> t.verificationDigest != s.verificationDigest)
  {
    hide RulesMatch, StatusMap, Decimal, PhaseName, IsVerifyDigest, DecimalInteger;
    StatusPasses(s, t, rules, VerificationPhase);
    PhaseNamed(t.verificationPhase, phase);
    StatusPasses(s, t, rules, VerificationCursor);
    BigInjective(t.verificationCursor, cursor);
    StatusPasses(s, t, rules, VerificationDigest);
  }

  lemma StateWritten(s: Status, t: Status, rules: map<StatusField, Rule>, state: ReleaseState)
    requires RulesMatch(StatusMap(s), StatusMap(t), rules)
    requires RuleFor(rules, State) == Some(Equals(JStr(StateName(state))))
    ensures t.state == state
  {
    hide RulesMatch, StatusMap, StateName, Big, Text, OptionalBig, PhaseName;
    StatusPasses(s, t, rules, State);
    StateNamed(t.state, state);
  }

  lemma OnlyTheseFourChange(s: Status, t: Status, rules: map<StatusField, Rule>)
    requires RulesMatch(StatusMap(s), StatusMap(t), rules)
    requires rules.Keys == {State, VerificationPhase, VerificationCursor, VerificationDigest}
    ensures t == s.(state := t.state, verificationPhase := t.verificationPhase, verificationCursor := t.verificationCursor,
                    verificationDigest := t.verificationDigest)
  {
    hide RulesMatch, StatusMap, Big, Text, OptionalBig, StateName, PhaseName;
    OnlyRuledFieldsChange(s, t, rules,
      s.(state := t.state, verificationPhase := t.verificationPhase, verificationCursor := t.verificationCursor,
         verificationDigest := t.verificationDigest));
  }

  lemma OnlyTheseThreeChange(s: Status, t: Status, rules: map<StatusField, Rule>)
    requires RulesMatch(StatusMap(s), StatusMap(t), rules)
    requires rules.Keys == {VerificationPhase, VerificationCursor, VerificationDigest}
    ensures t == s.(verificationPhase := t.verificationPhase, verificationCursor := t.verificationCursor,
                    verificationDigest := t.verificationDigest)
  {
    hide RulesMatch, StatusMap, Big, Text, OptionalBig, StateName, PhaseName;
    OnlyRuledFieldsChange(s, t, rules,
      s.(verificationPhase := t.verificationPhase, verificationCursor := t.verificationCursor,
         verificationDigest := t.verificationDigest));
  }

  lemma OnlyTheseTwoChange(s: Status, t: Status, rules: map<StatusField, Rule>)
    requires RulesMatch(StatusMap(s), StatusMap(t), rules) && rules.Keys == {State, ReadyFlag}
    ensures t == s.(state := t.state, ready := t.ready)
  {
    hide RulesMatch, StatusMap, Big, Text, OptionalBig, StateName, PhaseName;
    OnlyRuledFieldsChange(s, t, rules, s.(state := t.state, ready := t.ready));
  }

  lemma BeginGateProves(before: Observation, after: Observation, a: Authority)
    requires before.status.state == Importing && before.status.importsExact
    requires GateHolds(ExpectedAfter(BeginVerification, before, a), before, after)
    ensures BeginPost(before, after)
  {
    hide RulesMatch, StatusMap, AuditMap, Big, IsVerifyDigest, DecimalInteger;
    var rules := ExpectedAfter(BeginVerification, before, a);
    var s, t := before.status, after.status;
    OnlyTheseFourChange(s, t, rules.status);
    VerificationWritten(s, t, rules.status, Components, 0, true);
    StateWritten(s, t, rules.status, Verifying);
    VerifiedUnruled(before.cutover, after.cutover, rules.audit);
  }

  lemma ReadyWritten(s: Status, t: Status, rules: map<StatusField, Rule>)
    requires RulesMatch(StatusMap(s), StatusMap(t), rules) && RuleFor(rules, ReadyFlag) == Some(Equals(JBool(true)))
    ensures t.ready
  {
    hide RulesMatch, StatusMap, StateName, Big, Text, OptionalBig, PhaseName;
    StatusPasses(s, t, rules, ReadyFlag);
  }

  lemma ReadyName()
    ensures StateName(Ready) == "ready"
  {
  }

  lemma FinalizeGateProves(digest: string, before: Observation, after: Observation, a: Authority)
    requires before.status.state == Verifying && before.status.verificationPhase == Complete
    requires GateHolds(ExpectedAfter(Finalize(digest), before, a), before, after)
    ensures FinalizePost(before, after)
  {
    hide RulesMatch, StatusMap, AuditMap, Big, DecimalInteger, MatchesPattern, PhaseName, StateName;
    var rules := ExpectedAfter(Finalize(digest), before, a);
    assert JStr("ready") == JStr(StateName(Ready)) by { ReadyName(); }
    var s, t := before.status, after.status;
    OnlyTheseTwoChange(s, t, rules.status);
    StateWritten(s, t, rules.status, Ready);
    ReadyWritten(s, t, rules.status);
    VerifiedUnruled(before.cutover, after.cutover, rules.audit);
  }

  /** What the postcondition of a verify batch asks of the state before it, and the predicate does not. */
  ghost predicate CursorTracked(before: Observation) {
    var s := before.status;
    && s.verificationCursor <= PhaseTotal(s, s.verificationPhase)
    && (VerifiedIn(before.cutover.verified, s.verificationPhase).Some? ==>
          VerifiedIn(before.cutover.verified, s.verificationPhase) == Some(s.verificationCursor as nat))
  }

  lemma VerifiedFieldMoves(requested: nat, before: Observation, after: Observation, a: Authority, field: AuditField)
    requires GateHolds(ExpectedAfter(VerifyBatch(requested), before, a), before, after)
    requires !field.AOther? && !field.AVerificationPhase? && !field.AVerificationCursor? && !field.AVerificationDigest?
    ensures var phase, start := before.status.verificationPhase, before.status.verificationCursor;
            AuditValue(after.cutover, field)
            == if VerifiedField(phase) == Some(field) then JNum(BatchEnd(PhaseTotal(before.status, phase), start, requested))
               else AuditValue(before.cutover, field)
  {
    hide RulesMatch, StatusMap, AuditMap, Big, DecimalInteger, MatchesPattern, BatchEnd, PhaseName, AuditValue;
    AuditPasses(before.cutover, after.cutover, ExpectedAfter(VerifyBatch(requested), before, a).audit, field);
  }

  lemma VerifyAudit(requested: nat, before: Observation, after: Observation, a: Authority)
    requires GateHolds(ExpectedAfter(VerifyBatch(requested), before, a), before, after)
    ensures var phase, start := before.status.verificationPhase, before.status.verificationCursor;
            after.cutover.verified
            == WithVerified(before.cutover.verified, phase, BatchEnd(PhaseTotal(before.status, phase), start, requested))
  {
    hide GateHolds, BatchEnd, PhaseTotal, AuditValue;
    VerifiedFieldMoves(requested, before, after, a, AVerifiedComponentCount);
    VerifiedFieldMoves(requested, before, after, a, AVerifiedChunkCount);
    VerifiedFieldMoves(requested, before, after, a, AVerifiedCellCount);
    VerifiedFieldMoves(requested, before, after, a, AVerifiedSlotCount);
    VerifiedFieldMoves(requested, before, after, a, AVerifiedResourceNodeCount);
    VerifiedValues(before.cutover);
    VerifiedValues(after.cutover);
  }

  lemma VerifiedValues(c: Cutover)
    ensures AuditValue(c, AVerifiedComponentCount) == JNum(c.verified.components)
    ensures AuditValue(c, AVerifiedChunkCount) == JNum(c.verified.chunks)
    ensures AuditValue(c, AVerifiedCellCount) == JNum(c.verified.cells)
    ensures AuditValue(c, AVerifiedSlotCount) == JNum(c.verified.slots)
    ensures AuditValue(c, AVerifiedResourceNodeCount) == JNum(c.verified.resources)
  {
    hide Big, Text, OptionalBig, StateName;
  }

  /** For a verify batch the predicate proves the postcondition exactly when the cursor was tracked before. */
  lemma VerifyGateProves(requested: nat, before: Observation, after: Observation, a: Authority)
    requires before.status.state == Verifying && before.status.verificationPhase != Complete && requested >= 1
    requires GateHolds(ExpectedAfter(VerifyBatch(requested), before, a), before, after)
    ensures VerifyPost(requested, before, after) <==> CursorTracked(before)
  {
    hide RulesMatch, StatusMap, AuditMap, Big, DecimalInteger, MatchesPattern, PhaseName, IsVerifyDigest, WithVerified;
    var s, t := before.status, after.status;
    var rules := ExpectedAfter(VerifyBatch(requested), before, a);
    var total, start := PhaseTotal(s, s.verificationPhase), s.verificationCursor;
    var end := BatchEnd(total, start, requested);
    OnlyTheseThreeChange(s, t, rules.status);
    VerificationWritten(s, t, rules.status, if end == total then NextPhase(s.verificationPhase) else s.verificationPhase,
                        if end == total then 0 else end, end != start);
    VerifyAudit(requested, before, after, a);
  }

  /**
   For every planned operation but a stage or a chunk, an observation that passes the
   journal's predicate passes the driver's postcondition: for a verify batch, if and only if
   the cursor was tracked; for the others always.
   */
  lemma GatesAgree(op: Operation, before: Observation, after: Observation, a: Authority)
    requires ValidAuthority(a) && PlanNext(before.status, a) == Submit(op) && !op.Stage? && !op.ImportChunk?
    requires GateHolds(ExpectedAfter(op, before, a), before, after)
    ensures Postcondition(op, before, after, a) <==> (op.VerifyBatch? ==> CursorTracked(before))
  {
    hide GateHolds, ComponentsPost, RegionsPost, BeginPost, VerifyPost, FinalizePost, CursorTracked, ExpectedAfter;
    match op
    case ImportComponents(rows) => ComponentsGateProves(rows, before, after, a);
    case ImportRegions(rows) => RegionsGateProves(rows, before, after, a);
    case BeginVerification => BeginGateProves(before, after, a);
    case VerifyBatch(requested) => VerifyGateProves(requested, before, after, a);
    case Finalize(digest) => FinalizeGateProves(digest, before, after, a);
  }

  // ------------------------------------------------------------------ where they clash

  /** No state at all passes both gates of a chunk: one forbids the new digest the other demands. */
  lemma ChunkGatesClash(chunk: Chunk, before: Observation, after: Observation, a: Authority)
    ensures !(GateHolds(ExpectedAfter(ImportChunk(chunk), before, a), before, after)
              && Postcondition(ImportChunk(chunk), before, after, a))
  {
    hide RulesMatch, StatusMap, AuditMap, Big, DecimalInteger, MatchesPattern, IsVerifyDigest;
    var rules := ExpectedAfter(ImportChunk(chunk), before, a);
    if GateHolds(rules, before, after) {
      StatusPasses(before.status, after.status, rules.status, VerificationDigest);
    }
  }

  /** A stage passes both gates and the authority check. */
  ghost predicate StagePasses(before: Observation, after: Observation, a: Authority) {
    && GateHolds(ExpectedAfter(Stage, before, a), before, after)
    && StagePost(before, after, a) && AuthorityAgrees(after.status, after.cutover, a)
  }

  /** What the gates of a stage leave unruled, and the other checks fix: it must be so before. */
  ghost predicate StageCanPass(before: Observation, a: Authority) {
    var s, c := before.status, before.cutover;
    && a.totals.regions == 0
    && c.verificationPhase == PhaseName(s.verificationPhase) && c.verificationCursor == s.verificationCursor
    && c.componentExpectedCellCount == 0 && c.componentExpectedSlotCount == 0
    && c.componentExpectedResourceNodeCount == 0 && c.importedPassableCellCount == 0
    && !s.importsExact
  }

  lemma StageLeavesNumber(c: Cutover, d: Cutover, a: Authority, field: AuditField)
    requires RulesMatch(AuditMap(c), AuditMap(d), StageRules(a).audit) && !field.AOther?
    requires field !in StageMirrorRules(a) && field !in StageExpectationRules(a)
    ensures AuditValue(c, field) == AuditValue(d, field)
  {
    hide RulesMatch, AuditMap, AuditValue, StageMirrorRules, StageExpectationRules;
    AuditUnruled(c, d, StageRules(a).audit, field);
  }

  lemma StageLeavesCounts(c: Cutover, d: Cutover, a: Authority)
    requires RulesMatch(AuditMap(c), AuditMap(d), StageRules(a).audit)
    ensures d.componentExpectedCellCount == c.componentExpectedCellCount
    ensures d.componentExpectedSlotCount == c.componentExpectedSlotCount
    ensures d.componentExpectedResourceNodeCount == c.componentExpectedResourceNodeCount
    ensures d.importedPassableCellCount == c.importedPassableCellCount
  {
    hide RulesMatch, AuditMap, AuditValue, StageRules, StageMirrorRules, StageExpectationRules;
    SumsAreUnruled(a);
    SumValues(c);
    SumValues(d);
    StageLeavesNumber(c, d, a, AComponentExpectedCellCount);
    StageLeavesNumber(c, d, a, AComponentExpectedSlotCount);
    StageLeavesNumber(c, d, a, AComponentExpectedResourceNodeCount);
    StageLeavesNumber(c, d, a, AImportedPassableCellCount);
  }

  lemma SumsAreUnruled(a: Authority)
    ensures forall field | field in {AComponentExpectedCellCount, AComponentExpectedSlotCount,
                                     AComponentExpectedResourceNodeCount, AImportedPassableCellCount} ::
              field !in StageMirrorRules(a) && field !in StageExpectationRules(a)
  {
    hide Big;
  }

  lemma SumValues(c: Cutover)
    ensures AuditValue(c, AComponentExpectedCellCount) == JNum(c.componentExpectedCellCount)
    ensures AuditValue(c, AComponentExpectedSlotCount) == JNum(c.componentExpectedSlotCount)
    ensures AuditValue(c, AComponentExpectedResourceNodeCount) == JNum(c.componentExpectedResourceNodeCount)
    ensures AuditValue(c, AImportedPassableCellCount) == JNum(c.importedPassableCellCount)
  {
    hide Big, Text, OptionalBig, StateName;
  }

  lemma StageLeavesVerification(c: Cutover, d: Cutover, a: Authority)
    requires RulesMatch(AuditMap(c), AuditMap(d), StageRules(a).audit)
    ensures d.verificationPhase == c.verificationPhase && d.verificationCursor == c.verificationCursor
    ensures d.expectedRegionCount == c.expectedRegionCount
  {
    hide RulesMatch, AuditMap, StageRules, Big, Text, OptionalBig, StateName;
    StageLeavesNumber(c, d, a, AExpectedRegionCount);
    StageLeavesNumber(c, d, a, AVerificationPhase);
    StageLeavesNumber(c, d, a, AVerificationCursor);
    BigInjective(c.verificationCursor, d.verificationCursor);
  }

  /** The region count has no rule in the stage gate, and the authority check forces it to move. */
  lemma StageClashes(before: Observation, after: Observation, a: Authority)
    requires !before.status.present && Bound(before, a) && StagePasses(before, after, a)
    ensures StageCanPass(before, a)
  {
    hide RulesMatch, StatusMap, AuditMap, StageRules, IsVerifyDigest, PhaseName;
    StageLeavesCounts(before.cutover, after.cutover, a);
    StageLeavesVerification(before.cutover, after.cutover, a);
  }

  ghost function StagedStatus(s: Status, a: Authority, digest: string): Status {
    s.(present := true, state := Importing, atlasId := Some(a.atlasId), publicReleaseId := Some(a.publicReleaseId),
       importEpoch := Some(a.importEpoch), verificationDigest := digest,
       expectedComponentCount := a.totals.components, expectedChunkCount := a.totals.chunks,
       expectedCellCount := a.totals.cells, expectedSlotCount := a.totals.slots,
       expectedResourceNodeCount := a.totals.resources)
  }

  ghost function StagedCutover(c: Cutover, a: Authority, digest: string): Cutover {
    c.(releasePresent := true, releaseRows := 1, releaseState := Importing, atlasId := Some(a.atlasId),
       publicReleaseId := Some(a.publicReleaseId), importEpoch := Some(a.importEpoch), verificationDigest := Some(digest),
       expectedComponentCount := a.totals.components, expectedChunkCount := a.totals.chunks,
       expectedCellCount := a.totals.cells, expectedSlotCount := a.totals.slots,
       expectedResourceNodeCount := a.totals.resources, sourceCommit := Some(a.sourceCommit),
       expectedReleaseSha256 := Some(a.releaseSha256), releaseHeaderSha256 := Some(a.headerSha256))
  }

  lemma StagedStatusUnruled(s: Status, a: Authority, digest: string, field: StatusField)
    requires field !in StageRules(a).status
    ensures StatusValue(StagedStatus(s, a, digest), field) == StatusValue(s, field)
  {
    hide Big, Text, OptionalBig, StateName, PhaseName;
  }

  lemma StagedStatusRuled(s: Status, a: Authority, digest: string, field: StatusField)
    requires field in StageRules(a).status && IsVerifyDigest(digest) && digest != s.verificationDigest
    ensures ValuePasses(StatusValue(s, field), StatusValue(StagedStatus(s, a, digest), field), Some(StageRules(a).status[field]))
  {
    hide Big, StateName, PhaseName, IsVerifyDigest, StageMirrorRules, StageExpectationRules, DecimalInteger;
    match field
    case Present =>
    case AtlasId =>
    case PublicReleaseId =>
    case State => ImportingName();
    case ImportEpoch =>
    case VerificationDigest =>
    case ExpectedComponentCount =>
    case ExpectedChunkCount =>
    case ExpectedCellCount =>
    case ExpectedSlotCount =>
    case ExpectedResourceNodeCount =>
  }

  lemma StagedStatusPasses(s: Status, a: Authority, digest: string)
    requires IsVerifyDigest(digest) && digest != s.verificationDigest
    ensures RulesMatch(StatusMap(s), StatusMap(StagedStatus(s, a, digest)), StageRules(a).status)
  {
    hide StageRules, StagedStatus, StatusValue, IsVerifyDigest, MatchesPattern, DecimalInteger;
    var t, rules := StagedStatus(s, a, digest), StageRules(a).status;
    forall field ensures PathMatches(StatusMap(s), StatusMap(t), rules, field) {
      if field in rules { StagedStatusRuled(s, a, digest, field); } else { StagedStatusUnruled(s, a, digest, field); }
    }
  }

  lemma ImportingName()
    ensures StateName(Importing) == "importing"
  {
  }

  lemma StagedCutoverUnruled(c: Cutover, a: Authority, digest: string, field: AuditField)
    requires field !in StageRules(a).audit
    ensures AuditValue(StagedCutover(c, a, digest), field) == AuditValue(c, field)
  {
    hide Big, Text, OptionalBig, StateName;
  }

  lemma StagedMirrorRuled(c: Cutover, a: Authority, digest: string, field: AuditField)
    requires field in StageMirrorRules(a) && IsVerifyDigest(digest) && c.verificationDigest != Some(digest) && c.releaseRows == 0
    ensures ValuePasses(AuditValue(c, field), AuditValue(StagedCutover(c, a, digest), field), Some(StageMirrorRules(a)[field]))
  {
    hide Big, StateName, IsVerifyDigest, DecimalInteger;
    match field
    case AReleasePresent =>
    case AReleaseRows => BigReads(0); BigReads(1);
    case AReleaseState => ImportingName();
    case AAtlasId =>
    case APublicReleaseId =>
    case AImportEpoch =>
    case AVerificationDigest =>
  }

  lemma StagedExpectationRuled(c: Cutover, a: Authority, digest: string, field: AuditField)
    requires field in StageExpectationRules(a)
    ensures ValuePasses(AuditValue(c, field), AuditValue(StagedCutover(c, a, digest), field), Some(StageExpectationRules(a)[field]))
  {
    hide StageMirrorRules, StageExpectationRules, StagedCutover, AuditValue;
    StagedNames(c, a, digest, field);
  }

  lemma StagedNames(c: Cutover, a: Authority, digest: string, field: AuditField)
    requires field in StageExpectationRules(a)
    ensures StageExpectationRules(a)[field] == Equals(AuditValue(StagedCutover(c, a, digest), field))
  {
    hide AuditValue, StagedCutover;
    StagedCounts(c, a, digest);
    StagedTexts(c, a, digest);
  }

  lemma StagedCounts(c: Cutover, a: Authority, digest: string)
    ensures var d := StagedCutover(c, a, digest);
            && AuditValue(d, AExpectedComponentCount) == JNum(a.totals.components)
            && AuditValue(d, AExpectedChunkCount) == JNum(a.totals.chunks)
            && AuditValue(d, AExpectedCellCount) == JNum(a.totals.cells)
            && AuditValue(d, AExpectedSlotCount) == JNum(a.totals.slots)
            && AuditValue(d, AExpectedResourceNodeCount) == JNum(a.totals.resources)
  {
    hide Big, Text, StateName, OptionalBig;
  }

  lemma StagedTexts(c: Cutover, a: Authority, digest: string)
    ensures var d := StagedCutover(c, a, digest);
            && AuditValue(d, ASourceCommit) == JStr(a.sourceCommit)
            && AuditValue(d, AExpectedReleaseSha256) == JStr(a.releaseSha256)
            && AuditValue(d, AReleaseHeaderSha256) == JStr(a.headerSha256)
  {
    hide Big, StateName, OptionalBig;
  }

  lemma StagedCutoverPasses(c: Cutover, a: Authority, digest: string)
    requires IsVerifyDigest(digest) && c.verificationDigest != Some(digest) && c.releaseRows == 0
    ensures RulesMatch(AuditMap(c), AuditMap(StagedCutover(c, a, digest)), StageRules(a).audit)
  {
    hide AuditValue, IsVerifyDigest, MatchesPattern, DecimalInteger, NamedAuditFields, StageMirrorRules, StageExpectationRules;
    var d, rules := StagedCutover(c, a, digest), StageRules(a).audit;
    forall field | field in AuditFields(c) ensures PathMatches(AuditMap(c), AuditMap(d), rules, field) {
      if field in StageExpectationRules(a) {
        StagedExpectationRuled(c, a, digest, field);
      } else if field in StageMirrorRules(a) {
        StagedMirrorRuled(c, a, digest, field);
      } else {
        StagedCutoverUnruled(c, a, digest, field);
      }
    }
    StageRulesAreNamed(a);
  }

  lemma StageRulesAreNamed(a: Authority)
    ensures forall field | field in StageRules(a).audit :: !field.AOther?
  {
  }

  ghost function Zeros(digit: char): string {
    seq(64, _ => digit)
  }

  lemma FreshDigest(x: string, y: Option<string>) returns (digest: string)
    ensures IsSha256(digest) && digest != x && y != Some(digest)
  {
    assert Zeros('0')[0] != Zeros('1')[0] && Zeros('0')[0] != Zeros('2')[0] && Zeros('1')[0] != Zeros('2')[0];
    digest := if x != Zeros('0') && y != Some(Zeros('0')) then Zeros('0')
              else if x != Zeros('1') && y != Some(Zeros('1')) then Zeros('1') else Zeros('2');
  }

  /** So a stage can pass all its checks exactly when there are no regions and the rest was already so. */
  lemma StageGatesClash(before: Observation, a: Authority)
    requires ValidAuthority(a) && !before.status.present && Bound(before, a)
    ensures (exists after :: StagePasses(before, after, a)) <==> StageCanPass(before, a)
  {
    hide StagePasses, StageCanPass, Bound;
    if StageCanPass(before, a) {
      var digest := FreshDigest(before.status.verificationDigest, before.cutover.verificationDigest);
      var after := Observation(StagedStatus(before.status, a, digest), StagedCutover(before.cutover, a, digest));
      StageOpens(before, after, a, digest);
    }
    forall after | StagePasses(before, after, a) ensures StageCanPass(before, a) {
      StageClashes(before, after, a);
    }
  }

  lemma StageOpens(before: Observation, after: Observation, a: Authority, digest: string)
    requires ValidAuthority(a) && !before.status.present && Bound(before, a) && StageCanPass(before, a)
    requires IsSha256(digest) && digest != before.status.verificationDigest && before.cutover.verificationDigest != Some(digest)
    requires after == Observation(StagedStatus(before.status, a, digest), StagedCutover(before.cutover, a, digest))
    ensures StagePasses(before, after, a)
  {
    hide RulesMatch, StageRules, PhaseName, IsSha256;
    assert IsVerifyDigest(digest);
    StagedStatusPasses(before.status, a, digest);
    StagedCutoverPasses(before.cutover, a, digest);
  }
}
