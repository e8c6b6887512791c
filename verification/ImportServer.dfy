/**
 A server that does exactly what the postconditions ask: whatever the driver plans from a
 consistent state, there is an answer that keeps every check satisfied.
 */
module ImportServer {
  import opened Wrappers
  import opened SnapshotRules
  import opened ImportModel
  import opened ImportGates
  import opened ImportRun
  import opened ImportConforms

  /** The cutover status that agrees with a present import status. */
  ghost function Mirror(t: Status, c: Cutover, a: Authority): Cutover {
    c.(importMutationsCompiled := t.importMutationsCompiled, activationMutationsCompiled := t.activationMutationsCompiled,
       releasePresent := true, releaseRows := 1, releaseState := t.state,
       releaseImportsExact := t.importsExact, releaseReady := t.ready,
       atlasId := t.atlasId, publicReleaseId := t.publicReleaseId, importEpoch := t.importEpoch,
       sourceCommit := Some(a.sourceCommit), expectedReleaseSha256 := Some(a.releaseSha256),
       releaseHeaderSha256 := Some(a.headerSha256),
       verificationPhase := PhaseName(t.verificationPhase), verificationCursor := t.verificationCursor,
       verificationDigest := Some(t.verificationDigest),
       expectedRegionCount := a.totals.regions, expectedComponentCount := a.totals.components,
       expectedChunkCount := a.totals.chunks, expectedCellCount := a.totals.cells,
       expectedSlotCount := a.totals.slots, expectedResourceNodeCount := a.totals.resources,
       regionManifestRows := t.regionManifestRows, componentRows := t.componentRows, chunkRows := t.chunkRows,
       cellRows := t.cellRows, slotRows := t.slotRows, resourceNodeRows := t.resourceRows,
       greaterRealmClaimRows := t.claimRows, greaterRealmOccupancyRows := t.occupancyRows,
       activationRows := t.activationRows, atlasRows := t.publicAtlasRows,
       visibleRegionRows := t.publicRegionRows, workerSystemV2Rows := t.workerSystemRows)
  }

  lemma MirrorAgrees(t: Status, c: Cutover, a: Authority)
    requires t.present && t.importEpoch == Some(a.importEpoch)
    ensures AuthorityAgrees(t, Mirror(t, c, a), a)
  {
  }

  /** A digest other than the one there. */
  ghost function Fresh(digest: string): (next: string)
    ensures IsSha256(next) && next != digest
  {
    assert Zeros('0')[0] != Zeros('1')[0];
    if digest == Zeros('0') then Zeros('1') else Zeros('0')
  }

  /** A digest other than the one there, in the form the postcondition takes and the planner does not. */
  ghost function Unfinished(digest: string): (next: string)
    ensures IsVerifyDigest(next) && !IsSha256(next) && next != digest
  {
    assert Running('0')[75] != Running('1')[75];
    if digest == Running('0') then Running('1') else Running('0')
  }

  ghost function Running(c: char): (digest: string)
    requires '0' <= c <= '1'
    ensures |digest| == 77 && digest[75] == c && IsVerifyDigest(digest)
  {
    var digest := "sha256-v1:" + Zeros('0') + ":" + [c] + ":";
    assert digest[..10] == "sha256-v1:" && digest[10..74] == Zeros('0') && digest[75..76] == [c] && digest[77..] == [];
    assert digest[76] == ':';
    digest
  }

  /** The running sums stay 32-bit numbers. */
  ghost predicate Room(op: Operation, c: Cutover) {
    match op
    case ImportComponents(rows) =>
      && c.componentExpectedCellCount + CellSum(rows) < 0x1_0000_0000
      && c.componentExpectedSlotCount + SlotSum(rows) < 0x1_0000_0000
      && c.componentExpectedResourceNodeCount + ResourceSum(rows) < 0x1_0000_0000
    case ImportChunk(chunk) => c.importedPassableCellCount + chunk.passable < 0x1_0000_0000
    case _ => true
  }

  lemma {:induction false} PrefixIsLess(chunks: seq<Chunk>, k: nat)
    requires k <= |chunks|
    ensures CellsOf(chunks[..k]) <= CellsOf(chunks) && SlotsOf(chunks[..k]) <= SlotsOf(chunks)
    ensures ResourcesOf(chunks[..k]) <= ResourcesOf(chunks)
    decreases |chunks| - k
  {
    hide CellsOf, SlotsOf, ResourcesOf, PassableOf;
    if k < |chunks| {
      SnocSum(chunks, k);
      PrefixIsLess(chunks, k + 1);
    } else {
      assert chunks[..k] == chunks;
    }
  }

  /** The state an operation is planned from, fit to be answered. */
  ghost predicate Answerable(op: Operation, before: Observation, a: Authority) {
    && SumConsistent(a) && Bound(before, a) && Consistent(before.status, a) && Tracked(before, a)
    && PlanNext(before.status, a) == Submit(op) && Room(op, before.cutover)
  }

  /** Some observation after `before` is an accepted answer, and keeps what the next one needs. */
  ghost predicate HasAnswer(op: Operation, before: Observation, a: Authority) {
    exists after :: Answers(op, before, after, a)
  }

  /** Accepted, and nothing changed in the cutover status that the operation is not about. */
  ghost predicate Answers(op: Operation, before: Observation, after: Observation, a: Authority) {
    Accepted(op, before, after, a) && (Journalable(op) ==> Framed(op, before.cutover, after.cutover))
  }

  /** Mirroring the new status moves only the mirrored fields that the status moved. */
  lemma MirrorFrames(op: Operation, s: Status, t: Status, c: Cutover, d: Cutover, a: Authority)
    requires s.present && t.present && AuthorityAgrees(s, c, a) && t.importEpoch == s.importEpoch
    requires Framed(op, c, d) && MovedOnly(op, s, t)
    ensures Framed(op, c, Mirror(t, d, a))
  {
    hide Framed, Mirror, MovedOnly, AuthorityAgrees;
    if op.BeginVerification? || op.VerifyBatch? || op.Finalize? {
      VerifyingMirrorFrames(op, s, t, c, d, a);
    } else if op != Stage {
      ImportingMirrorFrames(op, s, t, c, d, a);
    } else {
      StageMovesNothingAlone(s, t);
    }
  }

  lemma StageMovesNothingAlone(s: Status, t: Status)
    ensures !MovedOnly(Stage, s, t)
  {
  }

  lemma ImportingMirrorFrames(op: Operation, s: Status, t: Status, c: Cutover, d: Cutover, a: Authority)
    requires op.ImportComponents? || op.ImportRegions? || op.ImportChunk?
    requires s.present && t.present && AuthorityAgrees(s, c, a) && t.importEpoch == s.importEpoch
    requires Framed(op, c, d) && MovedOnly(op, s, t)
    ensures Framed(op, c, Mirror(t, d, a))
  {
    hide PhaseName;
  }

  lemma VerifyingMirrorFrames(op: Operation, s: Status, t: Status, c: Cutover, d: Cutover, a: Authority)
    requires op.BeginVerification? || op.VerifyBatch? || op.Finalize?
    requires s.present && t.present && AuthorityAgrees(s, c, a) && t.importEpoch == s.importEpoch
    requires Framed(op, c, d) && MovedOnly(op, s, t)
    ensures Framed(op, c, Mirror(t, d, a))
  {
    hide PhaseName;
  }

  /** The status fields an operation may move. */
  ghost predicate MovedOnly(op: Operation, s: Status, t: Status) {
    match op
    case ImportComponents(_) => t == s.(componentRows := t.componentRows)
    case ImportRegions(_) => t == s.(regionManifestRows := t.regionManifestRows)
    case ImportChunk(_) =>
      t == s.(chunkRows := t.chunkRows, cellRows := t.cellRows, slotRows := t.slotRows, resourceRows := t.resourceRows,
              importsExact := t.importsExact)
    case BeginVerification =>
      t == s.(state := t.state, verificationPhase := t.verificationPhase, verificationCursor := t.verificationCursor,
              verificationDigest := t.verificationDigest)
    case VerifyBatch(_) =>
      t == s.(verificationPhase := t.verificationPhase, verificationCursor := t.verificationCursor,
              verificationDigest := t.verificationDigest)
    case Finalize(_) => t == s.(state := t.state, ready := t.ready)
    case Stage => false
  }

  lemma AnswerStage(before: Observation, a: Authority)
    requires Answerable(Stage, before, a)
    ensures HasAnswer(Stage, before, a)
  {
    hide CellsOf, SlotsOf, ResourcesOf, IsSha256, Tracked, Mirror, AuthorityAgrees;
    var s, digest := before.status, Fresh(before.status.verificationDigest);
    var t := StagedStatus(s, a, digest);
    assert IsVerifyDigest(digest);
    var c := before.cutover.(componentExpectedCellCount := 0, componentExpectedSlotCount := 0,
                             componentExpectedResourceNodeCount := 0, importedPassableCellCount := 0);
    MirrorAgrees(t, c, a);
    MirrorKeeps(t, c, a);
    assert a.totals.slots == CASTLE_SLOTS;
    assert Answers(Stage, before, Observation(t, Mirror(t, c, a)), a);
  }

  /** Mirroring a status leaves the running sums and verified counts alone. */
  lemma MirrorKeeps(t: Status, c: Cutover, a: Authority)
    ensures var d := Mirror(t, c, a);
            && d.verified == c.verified
            && d.componentExpectedCellCount == c.componentExpectedCellCount
            && d.componentExpectedSlotCount == c.componentExpectedSlotCount
            && d.componentExpectedResourceNodeCount == c.componentExpectedResourceNodeCount
            && d.importedPassableCellCount == c.importedPassableCellCount
  {
  }

  lemma AnswerComponents(op: Operation, before: Observation, a: Authority)
    requires op.ImportComponents? && Answerable(op, before, a)
    ensures HasAnswer(op, before, a)
  {
    hide CellsOf, SlotsOf, ResourcesOf, IsSha256, Tracked, Mirror, AuthorityAgrees, CellSum, SlotSum, ResourceSum, Batch;
    var s, c, rows := before.status, before.cutover, op.components;
    var t := s.(componentRows := s.componentRows + |rows|);
    var d := c.(componentExpectedCellCount := c.componentExpectedCellCount + CellSum(rows),
                componentExpectedSlotCount := c.componentExpectedSlotCount + SlotSum(rows),
                componentExpectedResourceNodeCount := c.componentExpectedResourceNodeCount + ResourceSum(rows));
    MirrorAgrees(t, d, a);
    MirrorKeeps(t, d, a);
    if Journalable(op) { MirrorFrames(op, before.status, t, before.cutover, d, a); }
    assert Answers(op, before, Observation(t, Mirror(t, d, a)), a);
  }

  lemma AnswerRegions(op: Operation, before: Observation, a: Authority)
    requires op.ImportRegions? && Answerable(op, before, a)
    ensures HasAnswer(op, before, a)
  {
    hide CellsOf, SlotsOf, ResourcesOf, IsSha256, Tracked, Mirror, AuthorityAgrees, Batch;
    var s := before.status;
    var t := s.(regionManifestRows := s.regionManifestRows + |op.regions|);
    MirrorAgrees(t, before.cutover, a);
    MirrorKeeps(t, before.cutover, a);
    if Journalable(op) { MirrorFrames(op, before.status, t, before.cutover, before.cutover, a); }
    assert Answers(op, before, Observation(t, Mirror(t, before.cutover, a)), a);
  }

  lemma AnswerChunk(op: Operation, before: Observation, a: Authority)
    requires op.ImportChunk? && Answerable(op, before, a)
    ensures HasAnswer(op, before, a)
  {
    hide CellsOf, SlotsOf, ResourcesOf, PassableOf, IsSha256, Tracked, Mirror, AuthorityAgrees;
    var s, c, chunk := before.status, before.cutover, op.chunk;
    SnocSum(a.chunks, s.chunkRows);
    PrefixIsLess(a.chunks, s.chunkRows + 1);
    var digest := Fresh(s.verificationDigest);
    assert IsVerifyDigest(digest);
    var u := s.(chunkRows := s.chunkRows + 1, cellRows := s.cellRows + chunk.cells, slotRows := s.slotRows + chunk.slots,
                resourceRows := s.resourceRows + chunk.resources, verificationDigest := digest);
    var t := u.(importsExact := ImportedCountsExact(u, a));
    var d := c.(importedPassableCellCount := c.importedPassableCellCount + chunk.passable);
    MirrorAgrees(t, d, a);
    MirrorKeeps(t, d, a);
    assert Answers(op, before, Observation(t, Mirror(t, d, a)), a);
  }

  lemma AnswerBegin(before: Observation, a: Authority)
    requires Answerable(BeginVerification, before, a)
    ensures HasAnswer(BeginVerification, before, a)
  {
    hide CellsOf, SlotsOf, ResourcesOf, IsSha256, Tracked, Mirror, AuthorityAgrees;
    var s, digest := before.status, Fresh(before.status.verificationDigest);
    assert IsVerifyDigest(digest);
    var t := s.(state := Verifying, verificationPhase := Components, verificationCursor := 0, verificationDigest := digest);
    MirrorAgrees(t, before.cutover, a);
    MirrorKeeps(t, before.cutover, a);
    if Journalable(BeginVerification) { MirrorFrames(BeginVerification, before.status, t, before.cutover, before.cutover, a); }
    assert Answers(BeginVerification, before, Observation(t, Mirror(t, before.cutover, a)), a);
  }

  /** Any new digest in the right form does for a verify batch. */
  lemma AnswerVerify(op: Operation, before: Observation, a: Authority, digest: string) returns (after: Observation)
    requires op.VerifyBatch? && Answerable(op, before, a)
    requires IsVerifyDigest(digest) && digest != before.status.verificationDigest
    ensures Answers(op, before, after, a) && after.status.verificationDigest == digest
  {
    hide CellsOf, SlotsOf, ResourcesOf, IsSha256, IsVerifyDigest, Mirror, AuthorityAgrees, WithVerified, PhaseTotal, NextPhase;
    var s, c := before.status, before.cutover;
    var phase, total := s.verificationPhase, PhaseTotal(s, s.verificationPhase);
    var end := BatchEnd(total, s.verificationCursor, VERIFY_ROWS);
    var t := s.(verificationPhase := if end == total then NextPhase(phase) else phase,
                verificationCursor := if end == total then 0 else end, verificationDigest := digest);
    var d := c.(verified := WithVerified(c.verified, phase, end));
    MirrorAgrees(t, d, a);
    MirrorKeeps(t, d, a);
    MirrorFrames(op, s, t, c, d, a);
    after := Observation(t, Mirror(t, d, a));
  }

  lemma AnswerVerifyPlainly(op: Operation, before: Observation, a: Authority)
    requires op.VerifyBatch? && Answerable(op, before, a)
    ensures HasAnswer(op, before, a)
  {
    hide Answerable, Answers, IsSha256;
    var digest := Fresh(before.status.verificationDigest);
    var after := AnswerVerify(op, before, a, digest);
  }

  /**
   A server may answer the last verify batch as its postcondition asks and still stop the
   driver for good: the planner has no operation for the digest it reports.
   */
  lemma AcceptedAndRefused(op: Operation, before: Observation, a: Authority) returns (after: Observation)
    requires op.VerifyBatch? && Answerable(op, before, a) && Remaining(before.status, a) == 2
    ensures Accepted(op, before, after, a) && Consistent(after.status, a) && Unfinalizable(after.status)
    ensures PlanNext(after.status, a) == Refuse(VerifyDigestInvalid)
  {
    hide Answerable, Accepted, Consistent, Remaining, SumConsistent, IsSha256, IsVerifyDigest;
    after := AnswerVerify(op, before, a, Unfinished(before.status.verificationDigest));
    assert SumConsistent(a) && Consistent(before.status, a) by { AnswerableIs(op, before, a); }
    AcceptedCounts(op, before, after, a);
    LastIsComplete(after.status, a);
  }

  lemma AnswerableIs(op: Operation, before: Observation, a: Authority)
    requires Answerable(op, before, a)
    ensures SumConsistent(a) && Consistent(before.status, a)
  {
    hide SumConsistent, Consistent;
  }

  /** One operation is left exactly when verification is complete. */
  lemma LastIsComplete(s: Status, a: Authority)
    requires SumConsistent(a) && Consistent(s, a) && Remaining(s, a) == 1
    ensures s.present && s.state == Verifying && s.verificationPhase == Complete
  {
    hide IsSha256, ImportLeft, CellsOf, SlotsOf, ResourcesOf, NextPhase, PhaseSize, VerifyFrom, PhaseBatches;
    SomeBatch(PhaseSize(a, s.verificationPhase), s.verificationCursor);
  }

  lemma SomeBatch(total: nat, cursor: nat)
    ensures PhaseBatches(total, cursor) >= 1
  {
    if cursor < total { OneBatchLess(total - cursor, VERIFY_ROWS); }
  }

  lemma AnswerFinalize(op: Operation, before: Observation, a: Authority)
    requires op.Finalize? && Answerable(op, before, a)
    ensures HasAnswer(op, before, a)
  {
    hide CellsOf, SlotsOf, ResourcesOf, IsSha256, Tracked, Mirror, AuthorityAgrees;
    var s := before.status;
    var t := s.(state := Ready, ready := true);
    MirrorAgrees(t, before.cutover, a);
    MirrorKeeps(t, before.cutover, a);
    if Journalable(op) { MirrorFrames(op, before.status, t, before.cutover, before.cutover, a); }
    assert Answers(op, before, Observation(t, Mirror(t, before.cutover, a)), a);
  }

  /**
   No planned operation is unanswerable without a journal: from every consistent, tracked
   state some observation passes the postcondition, the binding and the authority check.
   */
  lemma EveryPlanHasAnAnswer(op: Operation, before: Observation, a: Authority)
    requires Answerable(op, before, a)
    ensures HasAnswer(op, before, a)
  {
    hide Answerable, HasAnswer;
    match op
    case Stage => AnswerStage(before, a);
    case ImportComponents(_) => AnswerComponents(op, before, a);
    case ImportRegions(_) => AnswerRegions(op, before, a);
    case ImportChunk(_) => AnswerChunk(op, before, a);
    case BeginVerification => AnswerBegin(before, a);
    case VerifyBatch(_) => AnswerVerifyPlainly(op, before, a);
    case Finalize(_) => AnswerFinalize(op, before, a);
  }
}
