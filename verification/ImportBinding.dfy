/**
 What the checks on an inspection say as a whole: which statuses and cutover statuses pass them
 (scripts/greater-realm-production-import-core.ts, inspectBoundImportStatus and readyPostcondition).
 */
module ImportBinding {
  import opened Wrappers
  import opened SnapshotRules
  import opened ImportModel
  import opened ImportServer

  /** Nobody plays on it yet, and nothing is public. */
  ghost function Unused(s: Status): Status {
    s.(claimRows := 0, occupancyRows := 0, activationRows := 0, publicAtlasRows := 0, publicRegionRows := 0, workerSystemRows := 0)
  }

  /** The release of the manifest, in whatever state it is. */
  ghost function Identified(s: Status, a: Authority): Status {
    s.(present := true, atlasId := Some(a.atlasId), publicReleaseId := Some(a.publicReleaseId), importEpoch := Some(a.importEpoch),
       expectedComponentCount := a.totals.components, expectedChunkCount := a.totals.chunks,
       expectedCellCount := a.totals.cells, expectedSlotCount := a.totals.slots,
       expectedResourceNodeCount := a.totals.resources)
  }

  /** No release at all. */
  ghost function Blank(s: Status): Status {
    s.(present := false, state := Absent, atlasId := None, publicReleaseId := None, importEpoch := None,
       expectedComponentCount := 0, expectedChunkCount := 0, expectedCellCount := 0, expectedSlotCount := 0,
       expectedResourceNodeCount := 0, componentRows := 0, chunkRows := 0, cellRows := 0, slotRows := 0, resourceRows := 0)
  }

  ghost function Filled(s: Status, a: Authority): Status {
    s.(componentRows := a.totals.components, regionManifestRows := a.totals.regions, chunkRows := a.totals.chunks,
       cellRows := a.totals.cells, slotRows := a.totals.slots, resourceRows := a.totals.resources)
  }

  /** An inspection of a release passes exactly if it is this release, unused, within its totals, and the cutover status mirrors it. */
  lemma BoundExactly(o: Observation, a: Authority)
    requires o.status.present
    ensures var s, c := o.status, o.cutover;
            Bound(o, a) <==>
              && s == Unused(Identified(s, a)).(importMutationsCompiled := true, activationMutationsCompiled := false,
                                                ready := s.state.Ready?)
              && !s.state.Absent?
              && s.componentRows <= a.totals.components && s.regionManifestRows <= a.totals.regions
              && s.chunkRows <= a.totals.chunks && s.cellRows <= a.totals.cells
              && s.slotRows <= a.totals.slots && s.resourceRows <= a.totals.resources
              && c == Mirror(s, c, a)
  {
    var s, c := o.status, o.cutover;
    if s.importEpoch == Some(a.importEpoch) { AgreesExactly(s, c, a); }
  }

  lemma AgreesExactly(s: Status, c: Cutover, a: Authority)
    requires s.present && s.importEpoch == Some(a.importEpoch)
    ensures AuthorityAgrees(s, c, a) <==> c == Mirror(s, c, a)
  {
    hide PhaseName;
  }

  /** Without a release: nothing is there, and the cutover status says so. */
  lemma AbsentExactly(o: Observation, a: Authority)
    requires !o.status.present
    ensures var s, c := o.status, o.cutover;
            Bound(o, a) <==>
              && s == Unused(Blank(s)).(importMutationsCompiled := true, activationMutationsCompiled := false, ready := false)
              && s.regionManifestRows <= a.totals.regions
              && c == Mirror(s, c, a).(releasePresent := false, releaseRows := 0,
                                       sourceCommit := None, expectedReleaseSha256 := None, releaseHeaderSha256 := None,
                                       expectedRegionCount := 0, expectedComponentCount := 0, expectedChunkCount := 0,
                                       expectedCellCount := 0, expectedSlotCount := 0, expectedResourceNodeCount := 0,
                                       verificationPhase := c.verificationPhase, verificationCursor := c.verificationCursor,
                                       verificationDigest := c.verificationDigest)
  {
    hide PhaseName;
  }

  /** Ready is one status, up to the digest and the build flags: complete, verified, unused. */
  lemma ReadyExactly(s: Status, a: Authority)
    ensures ReadyPostcondition(s, a) <==>
              && IsSha256(s.verificationDigest)
              && s == Unused(Filled(Identified(s, a), a)).(state := Ready, ready := true, importsExact := true,
                                                           verificationPhase := Complete, verificationCursor := 0)
  {
    hide IsSha256;
  }
}
