/**
 What passes the journal's predicate: exactly the answers that meet the driver's postcondition
 and change nothing else in the cutover status than goes along with it
 (scripts/greater-realm-production-import-core.ts, importExpectedAfterPredicate).
 */
module ImportConforms {
  import opened Wrappers
  import opened SnapshotRules
  import opened ImportModel
  import opened ImportGates
  import opened ImportRun

  /** The reducers whose two gates do not contradict each other. */
  ghost predicate Journalable(op: Operation) {
    !op.Stage? && !op.ImportChunk?
  }

  /** The cutover status as it was, but for the fields an operation is about. */
  ghost predicate Framed(op: Operation, c: Cutover, d: Cutover) {
    match op
    case ImportComponents(_) =>
      d == c.(componentRows := d.componentRows, componentExpectedCellCount := d.componentExpectedCellCount,
              componentExpectedSlotCount := d.componentExpectedSlotCount,
              componentExpectedResourceNodeCount := d.componentExpectedResourceNodeCount)
    case ImportRegions(_) => d == c.(regionManifestRows := d.regionManifestRows)
    case ImportChunk(_) =>
      d == c.(chunkRows := d.chunkRows, cellRows := d.cellRows, slotRows := d.slotRows, resourceNodeRows := d.resourceNodeRows,
              releaseImportsExact := d.releaseImportsExact, importedPassableCellCount := d.importedPassableCellCount)
    case BeginVerification =>
      d == c.(releaseState := d.releaseState, verificationPhase := d.verificationPhase,
              verificationCursor := d.verificationCursor, verificationDigest := d.verificationDigest)
    case VerifyBatch(_) =>
      d == c.(verificationPhase := d.verificationPhase, verificationCursor := d.verificationCursor,
              verificationDigest := d.verificationDigest, verified := d.verified)
    case Finalize(_) => d == c.(releaseState := d.releaseState, releaseReady := d.releaseReady)
    case Stage => false
  }

  // --------------------------------------------------------------- passing field by field

  lemma StatusGate(s: Status, t: Status, rules: map<StatusField, Rule>)
    requires forall field | field in rules :: ValuePasses(StatusValue(s, field), StatusValue(t, field), Some(rules[field]))
    requires forall field | field !in rules :: Same(s, t, field)
    ensures RulesMatch(StatusMap(s), StatusMap(t), rules)
  {
    hide StatusValue, DecimalInteger, MatchesPattern;
    forall field ensures PathMatches(StatusMap(s), StatusMap(t), rules, field) {
      if field !in rules { assert Same(s, t, field); }
    }
  }

  ghost predicate SameAudit(c: Cutover, d: Cutover, field: AuditField) {
    AuditValue(c, field) == AuditValue(d, field)
  }

  lemma AuditGate(c: Cutover, d: Cutover, rules: map<AuditField, Rule>)
    requires c.others == d.others && forall field | field in rules :: !field.AOther?
    requires forall field | field in rules :: RulePasses(c, d, field, rules[field])
    requires forall field | field !in rules :: SameAudit(c, d, field)
    ensures RulesMatch(AuditMap(c), AuditMap(d), rules)
  {
    hide AuditValue, DecimalInteger, MatchesPattern, NamedAuditFields;
    forall field | field in AuditFields(c) ensures PathMatches(AuditMap(c), AuditMap(d), rules, field) {
      if field in rules { assert RulePasses(c, d, field, rules[field]); } else { assert SameAudit(c, d, field); }
    }
  }

  ghost predicate RulePasses(c: Cutover, d: Cutover, field: AuditField, rule: Rule) {
    ValuePasses(AuditValue(c, field), AuditValue(d, field), Some(rule))
  }

  /** A gate of four rules, one by one. */
  lemma FourRules(op: Operation, c: Cutover, d: Cutover, rules: map<AuditField, Rule>,
                  f1: AuditField, f2: AuditField, f3: AuditField, f4: AuditField)
    requires Framed(op, c, d) && rules.Keys == {f1, f2, f3, f4}
    requires forall field | field !in rules :: !Touched(op, field)
    requires !f1.AOther? && !f2.AOther? && !f3.AOther? && !f4.AOther?
    requires RulePasses(c, d, f1, rules[f1]) && RulePasses(c, d, f2, rules[f2])
    requires RulePasses(c, d, f3, rules[f3]) && RulePasses(c, d, f4, rules[f4])
    ensures RulesMatch(AuditMap(c), AuditMap(d), rules)
  {
    hide Framed, Touched, RulePasses, SameAudit, AuditMap, RulesMatch;
    FrameLeaves(op, c, d);
    OneByOne(c, d, rules, f1, f2, f3, f4);
    hide *;
    AuditGate(c, d, rules);
  }

  lemma OneByOne(c: Cutover, d: Cutover, rules: map<AuditField, Rule>,
                 f1: AuditField, f2: AuditField, f3: AuditField, f4: AuditField)
    requires rules.Keys == {f1, f2, f3, f4} && !f1.AOther? && !f2.AOther? && !f3.AOther? && !f4.AOther?
    requires RulePasses(c, d, f1, rules[f1]) && RulePasses(c, d, f2, rules[f2])
    requires RulePasses(c, d, f3, rules[f3]) && RulePasses(c, d, f4, rules[f4])
    ensures forall field | field in rules :: !field.AOther? && RulePasses(c, d, field, rules[field])
  {
    hide *;
    forall field | field in rules ensures !field.AOther? && RulePasses(c, d, field, rules[field]) {
      assert field in rules.Keys;
    }
  }

  lemma BigPasses(left: nat, right: nat, delta: int)
    requires right == left + delta
    ensures ValuePasses(Big(left), Big(right), Some(IntegerDelta(delta)))
  {
    BigReads(left);
    BigReads(right);
  }

  lemma NumberPasses(left: u32, right: u32, delta: int)
    requires right == left + delta
    ensures ValuePasses(JNum(left), JNum(right), Some(IntegerDelta(delta)))
  {
  }

  lemma EqualsPasses(left: Json, right: Json)
    ensures ValuePasses(left, right, Some(Equals(right)))
  {
  }

  /** What a frame says of the fields without rules. */
  lemma FrameLeaves(op: Operation, c: Cutover, d: Cutover)
    requires Framed(op, c, d)
    ensures c.others == d.others
    ensures forall field | !Touched(op, field) :: SameAudit(c, d, field)
  {
    hide Big, Text, OptionalBig, StateName, SameAudit;
    forall field | !Touched(op, field) ensures SameAudit(c, d, field) { LeavesField(op, c, d, field); }
  }

  /** The audit fields an operation may touch. */
  ghost predicate Touched(op: Operation, field: AuditField) {
    match op
    case ImportComponents(_) =>
      field in {AComponentRows, AComponentExpectedCellCount, AComponentExpectedSlotCount, AComponentExpectedResourceNodeCount}
    case ImportRegions(_) => field == ARegionManifestRows
    case ImportChunk(_) =>
      field in {AChunkRows, ACellRows, ASlotRows, AResourceNodeRows, AReleaseImportsExact, AImportedPassableCellCount}
    case BeginVerification => field in {AReleaseState, AVerificationPhase, AVerificationCursor, AVerificationDigest}
    case VerifyBatch(_) =>
      field in {AVerificationPhase, AVerificationCursor, AVerificationDigest, AVerifiedComponentCount, AVerifiedChunkCount,
                AVerifiedCellCount, AVerifiedSlotCount, AVerifiedResourceNodeCount}
    case Finalize(_) => field in {AReleaseState, AReleaseReady}
    case Stage => true
  }

  lemma LeavesField(op: Operation, c: Cutover, d: Cutover, field: AuditField)
    requires Framed(op, c, d) && !Touched(op, field)
    ensures SameAudit(c, d, field)
  {
    hide SameAudit;
    if op.BeginVerification? || op.VerifyBatch? || op.Finalize? { VerifyingLeaves(op, c, d, field); }
    else if op.ImportChunk? { ChunkLeaves(op, c, d, field); }
    else if op.ImportRegions? { RegionsLeave(op, c, d, field); }
    else { ComponentsLeave(op, c, d, field); }
  }

  lemma ComponentsLeave(op: Operation, c: Cutover, d: Cutover, field: AuditField)
    requires op.ImportComponents? && Framed(op, c, d) && !Touched(op, field)
    ensures SameAudit(c, d, field)
  {
    hide Big, Text, OptionalBig, StateName;
  }

  lemma RegionsLeave(op: Operation, c: Cutover, d: Cutover, field: AuditField)
    requires op.ImportRegions? && Framed(op, c, d) && !Touched(op, field)
    ensures SameAudit(c, d, field)
  {
    hide Big, Text, OptionalBig, StateName;
  }

  lemma ChunkLeaves(op: Operation, c: Cutover, d: Cutover, field: AuditField)
    requires op.ImportChunk? && Framed(op, c, d) && !Touched(op, field)
    ensures SameAudit(c, d, field)
  {
    hide Big, Text, OptionalBig, StateName;
  }

  lemma VerifyingLeaves(op: Operation, c: Cutover, d: Cutover, field: AuditField)
    requires op.BeginVerification? || op.VerifyBatch? || op.Finalize?
    requires Framed(op, c, d) && !Touched(op, field)
    ensures SameAudit(c, d, field)
  {
    hide Big, Text, OptionalBig, StateName;
  }

  // ------------------------------------------------------------------ components

  lemma ComponentsAuditValues(c: Cutover)
    ensures AuditValue(c, AComponentRows) == Big(c.componentRows)
    ensures AuditValue(c, AComponentExpectedCellCount) == JNum(c.componentExpectedCellCount)
    ensures AuditValue(c, AComponentExpectedSlotCount) == JNum(c.componentExpectedSlotCount)
    ensures AuditValue(c, AComponentExpectedResourceNodeCount) == JNum(c.componentExpectedResourceNodeCount)
  {
    hide Big;
  }

  lemma ComponentsRulesPass(rows: seq<Component>, c: Cutover, d: Cutover)
    requires d.componentRows == c.componentRows + |rows|
    requires d.componentExpectedCellCount == c.componentExpectedCellCount + CellSum(rows)
    requires d.componentExpectedSlotCount == c.componentExpectedSlotCount + SlotSum(rows)
    requires d.componentExpectedResourceNodeCount == c.componentExpectedResourceNodeCount + ResourceSum(rows)
    ensures RulePasses(c, d, AComponentRows, IntegerDelta(|rows|))
    ensures RulePasses(c, d, AComponentExpectedCellCount, IntegerDelta(CellSum(rows)))
    ensures RulePasses(c, d, AComponentExpectedSlotCount, IntegerDelta(SlotSum(rows)))
    ensures RulePasses(c, d, AComponentExpectedResourceNodeCount, IntegerDelta(ResourceSum(rows)))
  {
    hide Big, AuditValue, ValuePasses, CellSum, SlotSum, ResourceSum;
    ComponentsAuditValues(c);
    ComponentsAuditValues(d);
    BigPasses(c.componentRows, d.componentRows, |rows|);
    NumberPasses(c.componentExpectedCellCount, d.componentExpectedCellCount, CellSum(rows));
    NumberPasses(c.componentExpectedSlotCount, d.componentExpectedSlotCount, SlotSum(rows));
    NumberPasses(c.componentExpectedResourceNodeCount, d.componentExpectedResourceNodeCount, ResourceSum(rows));
  }

  lemma ComponentsAuditPass(rows: seq<Component>, c: Cutover, d: Cutover, rules: map<AuditField, Rule>)
    requires rules == map[AComponentRows := IntegerDelta(|rows|),
                          AComponentExpectedCellCount := IntegerDelta(CellSum(rows)),
                          AComponentExpectedSlotCount := IntegerDelta(SlotSum(rows)),
                          AComponentExpectedResourceNodeCount := IntegerDelta(ResourceSum(rows))]
    requires d.componentRows == c.componentRows + |rows|
    requires d.componentExpectedCellCount == c.componentExpectedCellCount + CellSum(rows)
    requires d.componentExpectedSlotCount == c.componentExpectedSlotCount + SlotSum(rows)
    requires d.componentExpectedResourceNodeCount == c.componentExpectedResourceNodeCount + ResourceSum(rows)
    requires Framed(ImportComponents(rows), c, d)
    ensures RulesMatch(AuditMap(c), AuditMap(d), rules)
  {
    hide CellSum, SlotSum, ResourceSum, RulesMatch, AuditMap, RulePasses, Framed;
    ComponentsRulesPass(rows, c, d);
    FourRules(ImportComponents(rows), c, d, rules,
              AComponentRows, AComponentExpectedCellCount, AComponentExpectedSlotCount, AComponentExpectedResourceNodeCount);
  }

  /** A gate with a delta on one row count and nothing else. */
  lemma RowsStatusPass(s: Status, t: Status, field: StatusField, left: Json, right: Json, delta: int)
    requires StatusValue(s, field) == left && StatusValue(t, field) == right && ValuePasses(left, right, Some(IntegerDelta(delta)))
    requires forall other | other != field :: Same(s, t, other)
    ensures RulesMatch(StatusMap(s), StatusMap(t), map[field := IntegerDelta(delta)])
  {
    hide StatusValue, Same, ValuePasses, StatusMap, RulesMatch;
    StatusGate(s, t, map[field := IntegerDelta(delta)]);
  }

  lemma ComponentRowsRest(s: Status, t: Status)
    requires t == s.(componentRows := t.componentRows)
    ensures forall other | other != ComponentRows :: Same(s, t, other)
    ensures StatusValue(s, ComponentRows) == Big(s.componentRows)
  {
    hide Big, Text, OptionalBig, StateName, PhaseName;
  }

  /** What the binding says of the fields that a status and its cutover status share. */
  lemma Mirrored(o: Observation, a: Authority)
    requires Bound(o, a) && o.status.present
    ensures var s, c := o.status, o.cutover;
            && c.componentRows == s.componentRows && c.regionManifestRows == s.regionManifestRows
            && c.chunkRows == s.chunkRows && c.cellRows == s.cellRows && c.slotRows == s.slotRows
            && c.resourceNodeRows == s.resourceRows
            && c.releaseState == s.state && c.releaseReady == s.ready && c.releaseImportsExact == s.importsExact
            && c.verificationPhase == PhaseName(s.verificationPhase) && c.verificationCursor == s.verificationCursor
            && c.verificationDigest == Some(s.verificationDigest)
  {
  }

  lemma ComponentsPass(rows: seq<Component>, before: Observation, after: Observation, a: Authority)
    requires before.status.present && Bound(before, a) && Bound(after, a)
    requires ComponentsPost(rows, before, after) && Framed(ImportComponents(rows), before.cutover, after.cutover)
    ensures GateHolds(ExpectedAfter(ImportComponents(rows), before, a), before, after)
  {
    hide Big, StatusValue, AuditValue, ValuePasses, CellSum, SlotSum, ResourceSum, RulesMatch, StatusMap, AuditMap, Framed, Bound, Same;
    var s, t := before.status, after.status;
    Mirrored(before, a);
    Mirrored(after, a);
    ComponentRowsRest(s, t);
    ComponentRowsRest(t, t);
    BigPasses(s.componentRows, t.componentRows, |rows|);
    RowsStatusPass(s, t, ComponentRows, Big(s.componentRows), Big(t.componentRows), |rows|);
    ComponentsAuditPass(rows, before.cutover, after.cutover, ExpectedAfter(ImportComponents(rows), before, a).audit);
  }

  // --------------------------------------------------------------------- regions

  lemma RegionRowsRest(s: Status, t: Status)
    requires t == s.(regionManifestRows := t.regionManifestRows)
    ensures forall other | other != RegionManifestRows :: Same(s, t, other)
    ensures StatusValue(s, RegionManifestRows) == JNum(s.regionManifestRows)
  {
    hide Big, Text, OptionalBig, StateName, PhaseName;
  }

  lemma RegionsAuditPass(rows: seq<Region>, c: Cutover, d: Cutover)
    requires Framed(ImportRegions(rows), c, d) && d.regionManifestRows == c.regionManifestRows + |rows|
    ensures RulesMatch(AuditMap(c), AuditMap(d), map[ARegionManifestRows := IntegerDelta(|rows|)])
  {
    hide AuditValue, ValuePasses, RulesMatch, AuditMap, SameAudit;
    var rules := map[ARegionManifestRows := IntegerDelta(|rows|)];
    FrameLeaves(ImportRegions(rows), c, d);
    hide Framed;
    RegionsAuditValue(c);
    RegionsAuditValue(d);
    NumberPasses(c.regionManifestRows, d.regionManifestRows, |rows|);
    AuditGate(c, d, rules);
  }

  lemma RegionsAuditValue(c: Cutover)
    ensures AuditValue(c, ARegionManifestRows) == JNum(c.regionManifestRows)
  {
  }

  lemma RegionsPass(rows: seq<Region>, before: Observation, after: Observation, a: Authority)
    requires before.status.present && Bound(before, a) && Bound(after, a)
    requires RegionsPost(rows, before, after) && Framed(ImportRegions(rows), before.cutover, after.cutover)
    ensures GateHolds(ExpectedAfter(ImportRegions(rows), before, a), before, after)
  {
    hide StatusValue, AuditValue, ValuePasses, RulesMatch, StatusMap, AuditMap, Framed, Bound, Same;
    var s, t := before.status, after.status;
    Mirrored(before, a);
    Mirrored(after, a);
    RegionRowsRest(s, t);
    RegionRowsRest(t, t);
    NumberPasses(s.regionManifestRows, t.regionManifestRows, |rows|);
    RowsStatusPass(s, t, RegionManifestRows, JNum(s.regionManifestRows), JNum(t.regionManifestRows), |rows|);
    RegionsAuditPass(rows, before.cutover, after.cutover);
  }

  // ---------------------------------------------------------------- verification

  ghost predicate VerificationField(field: StatusField) {
    field == VerificationPhase || field == VerificationCursor || field == VerificationDigest
  }

  lemma VerificationRest(s: Status, t: Status)
    requires t == s.(state := t.state, verificationPhase := t.verificationPhase, verificationCursor := t.verificationCursor,
                     verificationDigest := t.verificationDigest)
    ensures forall other | other != State && !VerificationField(other) :: Same(s, t, other)
    ensures t.state == s.state ==> Same(s, t, State)
  {
    hide Big, Text, OptionalBig, StateName, PhaseName;
  }

  lemma VerificationValues(s: Status)
    ensures StatusValue(s, State) == JStr(StateName(s.state))
    ensures StatusValue(s, VerificationPhase) == JStr(PhaseName(s.verificationPhase))
    ensures StatusValue(s, VerificationCursor) == Big(s.verificationCursor)
    ensures StatusValue(s, VerificationDigest) == JStr(s.verificationDigest)
  {
    hide Big, StateName, PhaseName;
  }

  lemma AuditVerificationValues(c: Cutover)
    ensures AuditValue(c, AReleaseState) == JStr(StateName(c.releaseState))
    ensures AuditValue(c, AVerificationPhase) == JStr(c.verificationPhase)
    ensures AuditValue(c, AVerificationCursor) == Big(c.verificationCursor)
    ensures AuditValue(c, AVerificationDigest) == Text(c.verificationDigest)
  {
    hide Big, StateName, Text;
  }

  lemma DigestPasses(left: string, right: string, mustChange: bool)
    requires IsVerifyDigest(right) && (mustChange ==> right != left)
    ensures ValuePasses(JStr(left), JStr(right), Some(Matches(VerifyDigest, mustChange)))
  {
    hide IsVerifyDigest;
  }

  lemma BeginNames()
    ensures StateName(Verifying) == "verifying" && PhaseName(Components) == "components"
  {
  }

  lemma BeginStatusPass(s: Status, t: Status, rules: map<StatusField, Rule>)
    requires rules == map[State := Equals(JStr("verifying")), VerificationPhase := Equals(JStr("components")),
                          VerificationCursor := Equals(Big(0)), VerificationDigest := DigestChanges]
    requires t == s.(state := Verifying, verificationPhase := Components, verificationCursor := 0,
                     verificationDigest := t.verificationDigest)
    requires t.verificationDigest != s.verificationDigest && IsVerifyDigest(t.verificationDigest)
    ensures RulesMatch(StatusMap(s), StatusMap(t), rules)
  {
    hide Big, StatusValue, RulesMatch, StatusMap, Same, IsVerifyDigest, StateName, PhaseName, ValuePasses;
    BeginNames();
    VerificationRest(s, t);
    VerificationValues(s);
    VerificationValues(t);
    DigestPasses(s.verificationDigest, t.verificationDigest, true);
    EqualsPasses(JStr(StateName(s.state)), JStr("verifying"));
    EqualsPasses(JStr(PhaseName(s.verificationPhase)), JStr("components"));
    EqualsPasses(Big(s.verificationCursor), Big(0));
    StatusGate(s, t, rules);
  }

  lemma BeginRulesPass(c: Cutover, d: Cutover, digest: string, was: string)
    requires d.releaseState == Verifying && d.verificationPhase == PhaseName(Components) && d.verificationCursor == 0
    requires c.verificationDigest == Some(was) && d.verificationDigest == Some(digest) && digest != was && IsVerifyDigest(digest)
    ensures RulePasses(c, d, AReleaseState, Equals(JStr("verifying"))) && RulePasses(c, d, AVerificationPhase, Equals(JStr("components")))
    ensures RulePasses(c, d, AVerificationCursor, Equals(Big(0))) && RulePasses(c, d, AVerificationDigest, DigestChanges)
  {
    hide Big, AuditValue, IsVerifyDigest, StateName, PhaseName, ValuePasses;
    BeginNames();
    AuditVerificationValues(c);
    AuditVerificationValues(d);
    DigestPasses(was, digest, true);
    EqualsPasses(JStr(StateName(c.releaseState)), JStr("verifying"));
    EqualsPasses(JStr(c.verificationPhase), JStr("components"));
    EqualsPasses(Big(c.verificationCursor), Big(0));
  }

  lemma BeginAuditPass(c: Cutover, d: Cutover, digest: string, was: string, rules: map<AuditField, Rule>)
    requires rules == map[AReleaseState := Equals(JStr("verifying")), AVerificationPhase := Equals(JStr("components")),
                          AVerificationCursor := Equals(Big(0)), AVerificationDigest := DigestChanges]
    requires Framed(BeginVerification, c, d) && d.releaseState == Verifying && d.verificationPhase == PhaseName(Components)
    requires d.verificationCursor == 0 && c.verificationDigest == Some(was) && d.verificationDigest == Some(digest)
    requires digest != was && IsVerifyDigest(digest)
    ensures RulesMatch(AuditMap(c), AuditMap(d), rules)
  {
    hide Big, RulesMatch, AuditMap, RulePasses, Framed, IsVerifyDigest, PhaseName;
    BeginRulesPass(c, d, digest, was);
    FourRules(BeginVerification, c, d, rules, AReleaseState, AVerificationPhase, AVerificationCursor, AVerificationDigest);
  }

  lemma BeginPass(before: Observation, after: Observation, a: Authority)
    requires before.status.present && Bound(before, a) && Bound(after, a)
    requires BeginPost(before, after) && Framed(BeginVerification, before.cutover, after.cutover)
    ensures GateHolds(ExpectedAfter(BeginVerification, before, a), before, after)
  {
    hide Big, RulesMatch, StatusMap, AuditMap, Framed, Bound, IsVerifyDigest, PhaseName, StateName;
    Mirrored(before, a);
    Mirrored(after, a);
    BeginStatusPass(before.status, after.status, ExpectedAfter(BeginVerification, before, a).status);
    BeginAuditPass(before.cutover, after.cutover, after.status.verificationDigest, before.status.verificationDigest,
                   ExpectedAfter(BeginVerification, before, a).audit);
  }

  lemma VerifyRest(c: Cutover, d: Cutover, requested: nat, phase: VerifyPhase, end: u32, field: AuditField)
    requires Framed(VerifyBatch(requested), c, d) && d.verified == WithVerified(c.verified, phase, end)
    requires field !in {AVerificationPhase, AVerificationCursor, AVerificationDigest} && VerifiedField(phase) != Some(field)
    ensures SameAudit(c, d, field)
  {
    hide Big, Text, OptionalBig, StateName;
  }

  lemma VerifiedIsWritten(d: Cutover, v: VerifiedCounts, phase: VerifyPhase, end: u32)
    requires d.verified == WithVerified(v, phase, end) && VerifiedField(phase).Some?
    ensures AuditValue(d, VerifiedField(phase).value) == JNum(end)
    ensures VerifiedField(phase).value !in {AVerificationPhase, AVerificationCursor, AVerificationDigest}
    ensures !VerifiedField(phase).value.AOther?
  {
  }

  lemma VerifyStatusPass(s: Status, t: Status, next: VerifyPhase, cursor: nat, mustChange: bool, rules: map<StatusField, Rule>)
    requires rules == map[VerificationPhase := Equals(JStr(PhaseName(next))), VerificationCursor := Equals(Big(cursor)),
                          VerificationDigest := Matches(VerifyDigest, mustChange)]
    requires t == s.(verificationPhase := t.verificationPhase, verificationCursor := t.verificationCursor,
                     verificationDigest := t.verificationDigest)
    requires t.verificationPhase == next && t.verificationCursor == cursor
    requires IsVerifyDigest(t.verificationDigest) && (mustChange ==> t.verificationDigest != s.verificationDigest)
    ensures RulesMatch(StatusMap(s), StatusMap(t), rules)
  {
    hide Big, StatusValue, RulesMatch, StatusMap, Same, IsVerifyDigest, StateName, PhaseName, ValuePasses;
    VerificationRest(s, t);
    VerificationValues(s);
    VerificationValues(t);
    DigestPasses(s.verificationDigest, t.verificationDigest, mustChange);
    EqualsPasses(JStr(PhaseName(s.verificationPhase)), JStr(PhaseName(next)));
    EqualsPasses(Big(s.verificationCursor), Big(cursor));
    StatusGate(s, t, rules);
  }

  lemma VerifyThreePass(c: Cutover, d: Cutover, next: string, cursor: nat, digest: string, was: string, mustChange: bool)
    requires d.verificationPhase == next && d.verificationCursor == cursor
    requires c.verificationDigest == Some(was) && d.verificationDigest == Some(digest)
    requires IsVerifyDigest(digest) && (mustChange ==> digest != was)
    ensures RulePasses(c, d, AVerificationPhase, Equals(JStr(next))) && RulePasses(c, d, AVerificationCursor, Equals(Big(cursor)))
    ensures RulePasses(c, d, AVerificationDigest, Matches(VerifyDigest, mustChange))
  {
    hide Big, AuditValue, IsVerifyDigest, ValuePasses;
    AuditVerificationValues(c);
    AuditVerificationValues(d);
    DigestPasses(was, digest, mustChange);
    EqualsPasses(JStr(c.verificationPhase), JStr(next));
    EqualsPasses(Big(c.verificationCursor), Big(cursor));
  }

  lemma VerifyAuditPass(requested: nat, c: Cutover, d: Cutover, phase: VerifyPhase, end: u32, next: string, cursor: nat,
                        digest: string, was: string, mustChange: bool, rules: map<AuditField, Rule>)
    requires var three := map[AVerificationPhase := Equals(JStr(next)), AVerificationCursor := Equals(Big(cursor)),
                              AVerificationDigest := Matches(VerifyDigest, mustChange)];
             rules == if VerifiedField(phase).None? then three else three[VerifiedField(phase).value := Equals(JNum(end))]
    requires Framed(VerifyBatch(requested), c, d) && d.verified == WithVerified(c.verified, phase, end)
    requires d.verificationPhase == next && d.verificationCursor == cursor
    requires c.verificationDigest == Some(was) && d.verificationDigest == Some(digest)
    requires IsVerifyDigest(digest) && (mustChange ==> digest != was)
    ensures RulesMatch(AuditMap(c), AuditMap(d), rules)
  {
    hide Big, AuditValue, RulesMatch, AuditMap, SameAudit, IsVerifyDigest, StateName, ValuePasses, WithVerified, VerifiedField;
    forall field | field !in rules ensures SameAudit(c, d, field) { VerifyRest(c, d, requested, phase, end, field); }
    assert c.others == d.others;
    if VerifiedField(phase).Some? {
      VerifiedIsWritten(d, c.verified, phase, end);
      EqualsPasses(AuditValue(c, VerifiedField(phase).value), JNum(end));
    }
    hide Framed, SameAudit;
    VerifyThreePass(c, d, next, cursor, digest, was, mustChange);
    AuditGate(c, d, rules);
  }

  lemma VerifyPass(requested: nat, before: Observation, after: Observation, a: Authority)
    requires before.status.present && Bound(before, a) && Bound(after, a)
    requires VerifyPost(requested, before, after) && Framed(VerifyBatch(requested), before.cutover, after.cutover)
    ensures GateHolds(ExpectedAfter(VerifyBatch(requested), before, a), before, after)
  {
    hide Big, RulesMatch, StatusMap, AuditMap, Framed, Bound, IsVerifyDigest, PhaseName, StateName, WithVerified, VerifiedField, PhaseTotal, NextPhase;
    Mirrored(before, a);
    Mirrored(after, a);
    var s, t, rules := before.status, after.status, ExpectedAfter(VerifyBatch(requested), before, a);
    var total := PhaseTotal(s, s.verificationPhase);
    var end := BatchEnd(total, s.verificationCursor, requested);
    VerifyStatusPass(s, t, t.verificationPhase, t.verificationCursor, end != s.verificationCursor, rules.status);
    VerifyAuditPass(requested, before.cutover, after.cutover, s.verificationPhase, end, PhaseName(t.verificationPhase), t.verificationCursor,
                    t.verificationDigest, s.verificationDigest, end != s.verificationCursor, rules.audit);
  }

  // -------------------------------------------------------------------- finalize

  lemma FinalizeStatusRest(s: Status, t: Status)
    requires t == s.(state := t.state, ready := t.ready)
    ensures forall other | other != State && other != ReadyFlag :: Same(s, t, other)
    ensures StatusValue(t, State) == JStr(StateName(t.state)) && StatusValue(t, ReadyFlag) == JBool(t.ready)
  {
    hide Big, Text, OptionalBig, StateName, PhaseName;
  }

  lemma FinalizeAuditValues(c: Cutover)
    ensures AuditValue(c, AReleaseState) == JStr(StateName(c.releaseState)) && AuditValue(c, AReleaseReady) == JBool(c.releaseReady)
  {
    hide StateName;
  }

  lemma FinalizePass(digest: string, before: Observation, after: Observation, a: Authority)
    requires before.status.present && Bound(before, a) && Bound(after, a)
    requires FinalizePost(before, after) && Framed(Finalize(digest), before.cutover, after.cutover)
    ensures GateHolds(ExpectedAfter(Finalize(digest), before, a), before, after)
  {
    hide RulesMatch, StatusMap, AuditMap, Bound, StateName, StatusValue, AuditValue, Same, SameAudit;
    Mirrored(after, a);
    ReadyName();
    var s, t, c, d, rules := before.status, after.status, before.cutover, after.cutover, ExpectedAfter(Finalize(digest), before, a);
    FinalizeStatusRest(s, t);
    FinalizeAuditValues(d);
    FrameLeaves(Finalize(digest), c, d);
    hide Framed;
    StatusGate(s, t, rules.status);
    AuditGate(c, d, rules.audit);
  }

  /**
   An answer that meets the postcondition and keeps the rest of the cutover status passes the
   journal's predicate, for every reducer but stage and chunk.
   */
  lemma ConformingPasses(op: Operation, before: Observation, after: Observation, a: Authority)
    requires Journalable(op) && before.status.present && Bound(before, a) && Bound(after, a)
    requires Postcondition(op, before, after, a) && Framed(op, before.cutover, after.cutover)
    ensures GateHolds(ExpectedAfter(op, before, a), before, after)
  {
    hide Bound, GateHolds, Framed, ExpectedAfter, ComponentsPost, RegionsPost, BeginPost, VerifyPost, FinalizePost;
    match op
    case ImportComponents(rows) => ComponentsPass(rows, before, after, a);
    case ImportRegions(rows) => RegionsPass(rows, before, after, a);
    case BeginVerification => BeginPass(before, after, a);
    case VerifyBatch(requested) => VerifyPass(requested, before, after, a);
    case Finalize(digest) => FinalizePass(digest, before, after, a);
  }

  // ------------------------------------------------------- what passes is framed

  lemma ImportRowValues(c: Cutover)
    ensures AuditValue(c, AComponentRows) == Big(c.componentRows)
    ensures AuditValue(c, AChunkRows) == Big(c.chunkRows)
    ensures AuditValue(c, ACellRows) == Big(c.cellRows)
  {
    hide Big, Text, OptionalBig, StateName;
  }

  lemma OtherRowValues(c: Cutover)
    ensures AuditValue(c, AReleaseRows) == Big(c.releaseRows)
    ensures AuditValue(c, AVerificationCursor) == Big(c.verificationCursor)
    ensures AuditValue(c, ASlotRows) == Big(c.slotRows)
    ensures AuditValue(c, AResourceNodeRows) == Big(c.resourceNodeRows)
  {
    hide Big, Text, OptionalBig, StateName;
  }

  lemma RowCountsDetermined(c: Cutover, d: Cutover)
    requires forall field :: SameAudit(c, d, field)
    ensures c.releaseRows == d.releaseRows
    ensures c.verificationCursor == d.verificationCursor
    ensures c.componentRows == d.componentRows
    ensures c.chunkRows == d.chunkRows
    ensures c.cellRows == d.cellRows
    ensures c.slotRows == d.slotRows
    ensures c.resourceNodeRows == d.resourceNodeRows
  {
    hide Big, AuditValue;
    ImportRowValues(c);
    ImportRowValues(d);
    OtherRowValues(c);
    OtherRowValues(d);
    assert SameAudit(c, d, AReleaseRows);
    BigInjective(c.releaseRows, d.releaseRows);
    assert SameAudit(c, d, AVerificationCursor);
    BigInjective(c.verificationCursor, d.verificationCursor);
    assert SameAudit(c, d, AComponentRows);
    BigInjective(c.componentRows, d.componentRows);
    assert SameAudit(c, d, AChunkRows);
    BigInjective(c.chunkRows, d.chunkRows);
    assert SameAudit(c, d, ACellRows);
    BigInjective(c.cellRows, d.cellRows);
    assert SameAudit(c, d, ASlotRows);
    BigInjective(c.slotRows, d.slotRows);
    assert SameAudit(c, d, AResourceNodeRows);
    BigInjective(c.resourceNodeRows, d.resourceNodeRows);
  }

  lemma PlayerValues(c: Cutover)
    ensures AuditValue(c, AClaimRows) == Big(c.greaterRealmClaimRows)
    ensures AuditValue(c, AOccupancyRows) == Big(c.greaterRealmOccupancyRows)
    ensures AuditValue(c, AActivationRows) == Big(c.activationRows)
  {
    hide Big, Text, OptionalBig, StateName;
  }

  lemma WorldValues(c: Cutover)
    ensures AuditValue(c, AAtlasRows) == Big(c.atlasRows)
    ensures AuditValue(c, AVisibleRegionRows) == Big(c.visibleRegionRows)
    ensures AuditValue(c, AWorkerSystemV2Rows) == Big(c.workerSystemV2Rows)
  {
    hide Big, Text, OptionalBig, StateName;
  }

  lemma PopulationCountsDetermined(c: Cutover, d: Cutover)
    requires forall field :: SameAudit(c, d, field)
    ensures c.greaterRealmClaimRows == d.greaterRealmClaimRows
    ensures c.greaterRealmOccupancyRows == d.greaterRealmOccupancyRows
    ensures c.activationRows == d.activationRows
    ensures c.atlasRows == d.atlasRows
    ensures c.visibleRegionRows == d.visibleRegionRows
    ensures c.workerSystemV2Rows == d.workerSystemV2Rows
  {
    hide Big, AuditValue;
    PlayerValues(c);
    PlayerValues(d);
    WorldValues(c);
    WorldValues(d);
    assert SameAudit(c, d, AClaimRows);
    BigInjective(c.greaterRealmClaimRows, d.greaterRealmClaimRows);
    assert SameAudit(c, d, AOccupancyRows);
    BigInjective(c.greaterRealmOccupancyRows, d.greaterRealmOccupancyRows);
    assert SameAudit(c, d, AActivationRows);
    BigInjective(c.activationRows, d.activationRows);
    assert SameAudit(c, d, AAtlasRows);
    BigInjective(c.atlasRows, d.atlasRows);
    assert SameAudit(c, d, AVisibleRegionRows);
    BigInjective(c.visibleRegionRows, d.visibleRegionRows);
    assert SameAudit(c, d, AWorkerSystemV2Rows);
    BigInjective(c.workerSystemV2Rows, d.workerSystemV2Rows);
  }

  lemma AuditFlagsDetermined(c: Cutover, d: Cutover)
    requires forall field :: SameAudit(c, d, field)
    ensures c.importMutationsCompiled == d.importMutationsCompiled
    ensures c.activationMutationsCompiled == d.activationMutationsCompiled
    ensures c.releasePresent == d.releasePresent
    ensures c.releaseImportsExact == d.releaseImportsExact
    ensures c.releaseReady == d.releaseReady
    ensures c.regionManifestRows == d.regionManifestRows
    ensures c.verificationPhase == d.verificationPhase
  {
    hide Big, Text, OptionalBig, StateName;
    assert SameAudit(c, d, AImportMutationsCompiled);
    assert SameAudit(c, d, AActivationMutationsCompiled);
    assert SameAudit(c, d, AReleasePresent);
    assert SameAudit(c, d, AReleaseImportsExact);
    assert SameAudit(c, d, AReleaseReady);
    assert SameAudit(c, d, ARegionManifestRows);
    assert SameAudit(c, d, AVerificationPhase);
  }

  lemma ExpectedCountsDetermined(c: Cutover, d: Cutover)
    requires forall field :: SameAudit(c, d, field)
    ensures c.expectedRegionCount == d.expectedRegionCount
    ensures c.expectedComponentCount == d.expectedComponentCount
    ensures c.expectedChunkCount == d.expectedChunkCount
    ensures c.expectedCellCount == d.expectedCellCount
    ensures c.expectedSlotCount == d.expectedSlotCount
    ensures c.expectedResourceNodeCount == d.expectedResourceNodeCount
  {
    hide Big, Text, OptionalBig, StateName;
    assert SameAudit(c, d, AExpectedRegionCount);
    assert SameAudit(c, d, AExpectedComponentCount);
    assert SameAudit(c, d, AExpectedChunkCount);
    assert SameAudit(c, d, AExpectedCellCount);
    assert SameAudit(c, d, AExpectedSlotCount);
    assert SameAudit(c, d, AExpectedResourceNodeCount);
  }

  lemma RunningSumsDetermined(c: Cutover, d: Cutover)
    requires forall field :: SameAudit(c, d, field)
    ensures c.componentExpectedCellCount == d.componentExpectedCellCount
    ensures c.componentExpectedSlotCount == d.componentExpectedSlotCount
    ensures c.componentExpectedResourceNodeCount == d.componentExpectedResourceNodeCount
    ensures c.importedPassableCellCount == d.importedPassableCellCount
  {
    hide Big, Text, OptionalBig, StateName;
    assert SameAudit(c, d, AComponentExpectedCellCount);
    assert SameAudit(c, d, AComponentExpectedSlotCount);
    assert SameAudit(c, d, AComponentExpectedResourceNodeCount);
    assert SameAudit(c, d, AImportedPassableCellCount);
  }

  lemma VerifiedCountsDetermined(c: Cutover, d: Cutover)
    requires forall field :: SameAudit(c, d, field)
    ensures c.verified == d.verified
  {
    hide AuditValue;
    VerifiedValues(c);
    VerifiedValues(d);
    assert SameAudit(c, d, AVerifiedComponentCount) && SameAudit(c, d, AVerifiedChunkCount) && SameAudit(c, d, AVerifiedCellCount);
    assert SameAudit(c, d, AVerifiedSlotCount) && SameAudit(c, d, AVerifiedResourceNodeCount);
  }

  lemma NamesDetermined(c: Cutover, d: Cutover)
    requires forall field :: SameAudit(c, d, field)
    ensures c.releaseState == d.releaseState && c.importEpoch == d.importEpoch
    ensures c.atlasId == d.atlasId && c.publicReleaseId == d.publicReleaseId && c.sourceCommit == d.sourceCommit
    ensures c.expectedReleaseSha256 == d.expectedReleaseSha256 && c.releaseHeaderSha256 == d.releaseHeaderSha256
    ensures c.verificationDigest == d.verificationDigest
  {
    hide StateName, PhaseName, Decimal, DecimalValue, IsDecimal;
    NamesDiffer();
    assert SameAudit(c, d, AReleaseState) && SameAudit(c, d, AImportEpoch) && SameAudit(c, d, AAtlasId);
    if c.importEpoch.Some? && d.importEpoch.Some? { BigInjective(c.importEpoch.value, d.importEpoch.value); }
    assert SameAudit(c, d, APublicReleaseId) && SameAudit(c, d, ASourceCommit) && SameAudit(c, d, AExpectedReleaseSha256);
    assert SameAudit(c, d, AReleaseHeaderSha256) && SameAudit(c, d, AVerificationDigest);
  }

  /** The canonical fields determine the cutover status. */
  lemma CutoverDetermined(c: Cutover, d: Cutover)
    requires c.others == d.others && forall field :: SameAudit(c, d, field)
    ensures c == d
  {
    hide SameAudit;
    RowCountsDetermined(c, d);
    PopulationCountsDetermined(c, d);
    AuditFlagsDetermined(c, d);
    ExpectedCountsDetermined(c, d);
    RunningSumsDetermined(c, d);
    VerifiedCountsDetermined(c, d);
    NamesDetermined(c, d);
  }

  /** The fields nobody names in a rule stay, under whatever names. */
  lemma OthersStay(c: Cutover, d: Cutover, rules: map<AuditField, Rule>)
    requires RulesMatch(AuditMap(c), AuditMap(d), rules) && forall field | field in rules :: !field.AOther?
    ensures c.others == d.others
  {
    hide MatchesPattern, DecimalInteger, AuditMap, AuditValue;
    forall name ensures (name in c.others <==> name in d.others) && (name in c.others ==> c.others[name] == d.others[name]) {
      OtherInMap(c, name);
      OtherInMap(d, name);
      if name in c.others || name in d.others { assert PathMatches(AuditMap(c), AuditMap(d), rules, AOther(name)); }
    }
  }

  lemma OtherInMap(c: Cutover, name: string)
    ensures AOther(name) in AuditMap(c) <==> name in c.others
    ensures name in c.others ==> AuditMap(c)[AOther(name)] == c.others[name]
  {
    assert AOther(name) in AuditFields(c) <==> name in c.others;
    OtherValue(c, name);
    hide AuditFields, AuditValue;
  }

  lemma OtherValue(c: Cutover, name: string)
    ensures name in c.others ==> AuditValue(c, AOther(name)) == c.others[name]
  {
    hide Big, Text, OptionalBig, StateName;
  }

  /** `c` with the fields an operation is about taken from `d`. */
  ghost function Taking(op: Operation, c: Cutover, d: Cutover): Cutover {
    match op
    case ImportComponents(_) =>
      c.(componentRows := d.componentRows, componentExpectedCellCount := d.componentExpectedCellCount,
         componentExpectedSlotCount := d.componentExpectedSlotCount,
         componentExpectedResourceNodeCount := d.componentExpectedResourceNodeCount)
    case ImportRegions(_) => c.(regionManifestRows := d.regionManifestRows)
    case BeginVerification =>
      c.(releaseState := d.releaseState, verificationPhase := d.verificationPhase,
         verificationCursor := d.verificationCursor, verificationDigest := d.verificationDigest)
    case VerifyBatch(_) =>
      c.(verificationPhase := d.verificationPhase, verificationCursor := d.verificationCursor,
         verificationDigest := d.verificationDigest, verified := d.verified)
    case Finalize(_) => c.(releaseState := d.releaseState, releaseReady := d.releaseReady)
    case _ => c
  }

  lemma TakesTouched(op: Operation, c: Cutover, d: Cutover, field: AuditField)
    requires Journalable(op) && Touched(op, field)
    ensures SameAudit(Taking(op, c, d), d, field)
  {
    hide SameAudit;
    if op.VerifyBatch? && field in {AVerificationPhase, AVerificationCursor, AVerificationDigest} { TakesVerifyPhase(op, c, d, field); }
    else if op.VerifyBatch? { TakesVerified(op, c, d, field); }
    else if op.BeginVerification? || op.Finalize? { TakesVerifying(op, c, d, field); }
    else { TakesImporting(op, c, d, field); }
  }

  lemma TakesVerifyPhase(op: Operation, c: Cutover, d: Cutover, field: AuditField)
    requires op.VerifyBatch? && field in {AVerificationPhase, AVerificationCursor, AVerificationDigest}
    ensures SameAudit(Taking(op, c, d), d, field)
  {
    hide Big, AuditValue;
    AuditVerificationValues(Taking(op, c, d));
    AuditVerificationValues(d);
  }

  lemma TakesVerified(op: Operation, c: Cutover, d: Cutover, field: AuditField)
    requires op.VerifyBatch? && Touched(op, field) && field !in {AVerificationPhase, AVerificationCursor, AVerificationDigest}
    ensures SameAudit(Taking(op, c, d), d, field)
  {
    hide Big, AuditValue;
    VerifiedValues(Taking(op, c, d));
    VerifiedValues(d);
  }

  lemma TakesVerifying(op: Operation, c: Cutover, d: Cutover, field: AuditField)
    requires (op.BeginVerification? || op.Finalize?) && Touched(op, field)
    ensures SameAudit(Taking(op, c, d), d, field)
  {
    hide Big, Text, OptionalBig, StateName;
  }

  lemma TakesImporting(op: Operation, c: Cutover, d: Cutover, field: AuditField)
    requires (op.ImportComponents? || op.ImportRegions?) && Touched(op, field)
    ensures SameAudit(Taking(op, c, d), d, field)
  {
    hide Big, Text, OptionalBig, StateName;
  }

  lemma TakingIsFramed(op: Operation, c: Cutover, d: Cutover)
    requires Journalable(op)
    ensures Framed(op, c, Taking(op, c, d)) && (Taking(op, c, d) == d ==> Framed(op, c, d))
  {
  }

  /** The rules of an operation name only fields it may touch. */
  lemma RulesTouch(op: Operation, before: Observation, a: Authority)
    requires Journalable(op)
    ensures forall field | field in ExpectedAfter(op, before, a).audit :: Touched(op, field) && !field.AOther?
  {
    hide Big, PhaseName, CellSum, SlotSum, ResourceSum;
  }

  /** What passes the predicate changes nothing but the fields its operation is about. */
  lemma PassingIsFramed(op: Operation, before: Observation, after: Observation, a: Authority)
    requires Journalable(op) && GateHolds(ExpectedAfter(op, before, a), before, after)
    ensures Framed(op, before.cutover, after.cutover)
  {
    var c, d, rules := before.cutover, after.cutover, ExpectedAfter(op, before, a).audit;
    assert RulesMatch(AuditMap(c), AuditMap(d), rules);
    RulesTouch(op, before, a);
    hide RulesMatch, AuditMap, AuditValue, Framed, Touched, Taking, ExpectedAfter;
    var e := Taking(op, c, d);
    TakingIsFramed(op, c, d);
    FrameLeaves(op, c, e);
    OthersStay(c, d, rules);
    forall field ensures SameAudit(e, d, field) {
      if Touched(op, field) {
        TakesTouched(op, c, d, field);
      } else if field.AOther? {
        OtherIsSame(c, d, field);
      } else {
        AuditUnruled(c, d, rules, field);
      }
    }
    CutoverDetermined(e, d);
  }

  lemma OtherIsSame(c: Cutover, d: Cutover, field: AuditField)
    requires field.AOther? && c.others == d.others
    ensures SameAudit(c, d, field)
  {
  }

  /**
   So the predicate accepts exactly what the postcondition accepts and the frame allows, for
   every planned operation but stage and chunk.
   */
  lemma PassesExactly(op: Operation, before: Observation, after: Observation, a: Authority)
    requires ValidAuthority(a) && PlanNext(before.status, a) == Submit(op) && Journalable(op)
    requires before.status.present && Bound(before, a) && Bound(after, a) && (op.VerifyBatch? ==> CursorTracked(before))
    ensures GateHolds(ExpectedAfter(op, before, a), before, after)
       <==> Postcondition(op, before, after, a) && Framed(op, before.cutover, after.cutover)
  {
    hide GateHolds, Framed, Postcondition, ExpectedAfter, Bound, PlanNext;
    if GateHolds(ExpectedAfter(op, before, a), before, after) {
      GatesAgree(op, before, after, a);
      PassingIsFramed(op, before, after, a);
    }
    if Postcondition(op, before, after, a) && Framed(op, before.cutover, after.cutover) {
      ConformingPasses(op, before, after, a);
    }
  }

  // ----------------------------------------------------------------------- a chunk

  /** What a chunk's postcondition asks, but with the verification digest left as it was. */
  ghost predicate ChunkButForDigest(chunk: Chunk, before: Observation, after: Observation, a: Authority) {
    var s, t := before.status, after.status;
    && t == s.(chunkRows := t.chunkRows, cellRows := t.cellRows, slotRows := t.slotRows, resourceRows := t.resourceRows,
               importsExact := t.importsExact)
    && t.chunkRows == s.chunkRows + 1 && t.cellRows == s.cellRows + chunk.cells
    && t.slotRows == s.slotRows + chunk.slots && t.resourceRows == s.resourceRows + chunk.resources
    && t.importsExact == ImportedCountsExact(t, a)
    && after.cutover.importedPassableCellCount == before.cutover.importedPassableCellCount + chunk.passable
  }

  lemma ChunkStatusValues(s: Status)
    ensures StatusValue(s, ChunkRows) == Big(s.chunkRows) && StatusValue(s, CellRows) == Big(s.cellRows)
    ensures StatusValue(s, SlotRows) == Big(s.slotRows) && StatusValue(s, ResourceRows) == Big(s.resourceRows)
    ensures StatusValue(s, ImportsExact) == JBool(s.importsExact)
  {
    hide Big;
  }

  lemma ChunkAuditCounts(c: Cutover)
    ensures AuditValue(c, AChunkRows) == Big(c.chunkRows) && AuditValue(c, ACellRows) == Big(c.cellRows)
    ensures AuditValue(c, ASlotRows) == Big(c.slotRows) && AuditValue(c, AResourceNodeRows) == Big(c.resourceNodeRows)
  {
    hide Big, Text, OptionalBig, StateName;
  }

  lemma ChunkAuditRest(c: Cutover)
    ensures AuditValue(c, AReleaseImportsExact) == JBool(c.releaseImportsExact)
    ensures AuditValue(c, AImportedPassableCellCount) == JNum(c.importedPassableCellCount)
  {
    hide Big, Text, OptionalBig, StateName;
  }

  ghost predicate StatusRulePasses(s: Status, t: Status, field: StatusField, rule: Rule) {
    ValuePasses(StatusValue(s, field), StatusValue(t, field), Some(rule))
  }

  lemma ChunkStatusRules(chunk: Chunk, s: Status, t: Status)
    requires t.chunkRows == s.chunkRows + 1 && t.cellRows == s.cellRows + chunk.cells
    requires t.slotRows == s.slotRows + chunk.slots && t.resourceRows == s.resourceRows + chunk.resources
    ensures StatusRulePasses(s, t, ChunkRows, IntegerDelta(1)) && StatusRulePasses(s, t, CellRows, IntegerDelta(chunk.cells))
    ensures StatusRulePasses(s, t, SlotRows, IntegerDelta(chunk.slots))
    ensures StatusRulePasses(s, t, ResourceRows, IntegerDelta(chunk.resources))
    ensures StatusRulePasses(s, t, ImportsExact, Equals(JBool(t.importsExact)))
  {
    hide Big, StatusValue, ValuePasses;
    ChunkStatusValues(s);
    ChunkStatusValues(t);
    BigPasses(s.chunkRows, t.chunkRows, 1);
    BigPasses(s.cellRows, t.cellRows, chunk.cells);
    BigPasses(s.slotRows, t.slotRows, chunk.slots);
    BigPasses(s.resourceRows, t.resourceRows, chunk.resources);
    EqualsPasses(JBool(s.importsExact), JBool(t.importsExact));
  }

  lemma ChunkAuditRules(chunk: Chunk, c: Cutover, d: Cutover)
    requires d.chunkRows == c.chunkRows + 1 && d.cellRows == c.cellRows + chunk.cells
    requires d.slotRows == c.slotRows + chunk.slots && d.resourceNodeRows == c.resourceNodeRows + chunk.resources
    requires d.importedPassableCellCount == c.importedPassableCellCount + chunk.passable
    ensures RulePasses(c, d, AChunkRows, IntegerDelta(1)) && RulePasses(c, d, ACellRows, IntegerDelta(chunk.cells))
    ensures RulePasses(c, d, ASlotRows, IntegerDelta(chunk.slots))
    ensures RulePasses(c, d, AResourceNodeRows, IntegerDelta(chunk.resources))
    ensures RulePasses(c, d, AReleaseImportsExact, Equals(JBool(d.releaseImportsExact)))
    ensures RulePasses(c, d, AImportedPassableCellCount, IntegerDelta(chunk.passable))
  {
    hide Big, AuditValue, ValuePasses;
    ChunkAuditCounts(c);
    ChunkAuditCounts(d);
    ChunkAuditRest(c);
    ChunkAuditRest(d);
    BigPasses(c.chunkRows, d.chunkRows, 1);
    BigPasses(c.cellRows, d.cellRows, chunk.cells);
    BigPasses(c.slotRows, d.slotRows, chunk.slots);
    BigPasses(c.resourceNodeRows, d.resourceNodeRows, chunk.resources);
    EqualsPasses(JBool(c.releaseImportsExact), JBool(d.releaseImportsExact));
    NumberPasses(c.importedPassableCellCount, d.importedPassableCellCount, chunk.passable);
  }

  lemma ChunkStatusRest(s: Status, t: Status, field: StatusField)
    requires t == s.(chunkRows := t.chunkRows, cellRows := t.cellRows, slotRows := t.slotRows, resourceRows := t.resourceRows,
                     importsExact := t.importsExact)
    requires field !in {ChunkRows, CellRows, SlotRows, ResourceRows, ImportsExact}
    ensures Same(s, t, field)
  {
    hide Big, Text, OptionalBig, StateName, PhaseName;
  }

  lemma ChunkStatusPass(chunk: Chunk, before: Observation, after: Observation, a: Authority)
    requires ChunkButForDigest(chunk, before, after, a)
    ensures RulesMatch(StatusMap(before.status), StatusMap(after.status), ChunkRules(chunk, before.status, a).status)
  {
    hide StatusMap, RulesMatch, StatusRulePasses, Same;
    var s, t, rules := before.status, after.status, ChunkRules(chunk, before.status, a).status;
    ChunkStatusRules(chunk, s, t);
    forall field | field !in rules ensures Same(s, t, field) { ChunkStatusRest(s, t, field); }
    hide ChunkButForDigest;
    forall field | field in rules ensures StatusRulePasses(s, t, field, rules[field]) {}
    RuledStatusGate(s, t, rules);
  }

  lemma RuledStatusGate(s: Status, t: Status, rules: map<StatusField, Rule>)
    requires forall field | field in rules :: StatusRulePasses(s, t, field, rules[field])
    requires forall field | field !in rules :: Same(s, t, field)
    ensures RulesMatch(StatusMap(s), StatusMap(t), rules)
  {
    hide StatusMap, RulesMatch, StatusValue, ValuePasses, Same;
    forall field | field in rules ensures ValuePasses(StatusValue(s, field), StatusValue(t, field), Some(rules[field])) {
      assert StatusRulePasses(s, t, field, rules[field]);
    }
    StatusGate(s, t, rules);
  }

  lemma ChunkAuditPass(chunk: Chunk, c: Cutover, d: Cutover, rules: map<AuditField, Rule>)
    requires rules == map[AChunkRows := IntegerDelta(1), ACellRows := IntegerDelta(chunk.cells), ASlotRows := IntegerDelta(chunk.slots),
                          AResourceNodeRows := IntegerDelta(chunk.resources),
                          AReleaseImportsExact := Equals(JBool(d.releaseImportsExact)),
                          AImportedPassableCellCount := IntegerDelta(chunk.passable)]
    requires d.chunkRows == c.chunkRows + 1 && d.cellRows == c.cellRows + chunk.cells
    requires d.slotRows == c.slotRows + chunk.slots && d.resourceNodeRows == c.resourceNodeRows + chunk.resources
    requires d.importedPassableCellCount == c.importedPassableCellCount + chunk.passable
    requires Framed(ImportChunk(chunk), c, d)
    ensures RulesMatch(AuditMap(c), AuditMap(d), rules)
  {
    hide AuditMap, RulesMatch, RulePasses, Framed, SameAudit;
    ChunkAuditRules(chunk, c, d);
    FrameLeaves(ImportChunk(chunk), c, d);
    forall field | field in rules ensures !field.AOther? && RulePasses(c, d, field, rules[field]) {}
    AuditGate(c, d, rules);
  }

  /** All that keeps a conforming chunk from passing is the digest: left as it was, the gate would let the chunk through. */
  lemma ChunkPassesButForDigest(chunk: Chunk, before: Observation, after: Observation, a: Authority)
    requires before.status.present && Bound(before, a) && Bound(after, a)
    requires ChunkButForDigest(chunk, before, after, a) && Framed(ImportChunk(chunk), before.cutover, after.cutover)
    ensures GateHolds(ExpectedAfter(ImportChunk(chunk), before, a), before, after)
  {
    hide RulesMatch, StatusMap, AuditMap, Bound, Framed;
    Mirrored(before, a);
    Mirrored(after, a);
    ChunkStatusPass(chunk, before, after, a);
    ChunkAuditPass(chunk, before.cutover, after.cutover, ChunkRules(chunk, before.status, a).audit);
  }
}
