/**
 Publication of the frozen realm as an effect sequence over dependencies that may fail at any
 call (scripts/genesis001-frozen-publisher-core.ts, publishGenesis001Frozen).
 */
module PublishMachine {
  import opened Wrappers

  /** How a call ends. A failure may say that containment could not be proven, and then nothing may be concluded from it. */
  datatype Reply = Done | Fails(uncontained: bool)

  /** A live snapshot, as far as the publisher compares it. */
  datatype Live = Live(exactTarget: bool, descriptor: nat)

  /** What every call will do, in the order the calls are made. */
  datatype World = World(
    mainReplies: seq<Reply>,       // three attestations of protected main
    commits: seq<string>,
    beforeReply: Reply,
    before: Live,
    exactBaseline: bool,
    buildReply: Reply,
    built: nat,                    // the descriptor of the built artifact
    wellFormedDigest: bool,        // its SHA-256, as the final receipt demands
    artifactPathValid: bool,
    verifications: seq<bool>,      // four checks of artifact and build provenance
    preservesBaseline: bool,
    policyExact: bool,
    acquireReply: Reply,
    postflightReply: Reply,
    prepareReply: Reply,
    releaseReply: Reply,
    completionReply: Reply,
    afterReply: Reply,
    after: Live,
    afterPreserves: bool,
    policyReply: Reply,
    policyMatches: bool,
    persistReply: Reply,
    pointerValid: bool,
    supervisorCleanupReply: Reply,
    authorityCloseReply: Reply,
    artifactCloseReply: Reply,
    artifactCleanupReply: Reply)

  ghost predicate Complete(w: World) {
    |w.mainReplies| == 3 == |w.commits| && |w.verifications| == 4
  }

  ghost predicate ValidCommit(commit: string) {
    |commit| == 40 && forall c | c in commit :: '0' <= c <= '9' || 'a' <= c <= 'f'
  }

  datatype Event =
    | Attested(commit: string)
    | ReadLive
    | Built
    | Verified
    | Acquired
    | PostflightPrepared
    | Supervised
    | Released // attempted, whatever became of it
    | Completed
    | ReadPolicy
    | Persisted
    | SupervisorCleaned
    | AuthorityClosed
    | ArtifactClosed
    | ArtifactRemoved

  datatype StopCode = OutcomeAbsent | OutcomeAmbiguous | ReceiptPersistence

  datatype Outcome =
    | Published
    | Threw
    | ManualStop(code: StopCode)

  /** The calls up to a release, in order: three attestations, each with a check of the artifact around it. */
  function Steps(w: World): (steps: seq<Event>)
    requires Complete(w)
    ensures |steps| == 11
  {
    [Attested(w.commits[0]), ReadLive, Built, Verified, Attested(w.commits[1]), Acquired, PostflightPrepared, Supervised,
     Verified, Attested(w.commits[2]), Verified]
  }

  /** What a release has behind it: the same commit attested three times, the artifact verified last. */
  function BeforeRelease(commit: string): seq<Event> {
    [Attested(commit), ReadLive, Built, Verified, Attested(commit), Acquired, PostflightPrepared, Supervised,
     Verified, Attested(commit), Verified]
  }

  // ------------------------------------------------ what must hold before each step

  /** Nothing stands against building: a valid source commit, and exactly the baseline live at the target. */
  ghost predicate Builds(w: World)
    requires Complete(w)
  {
    && w.mainReplies[0] == Done && ValidCommit(w.commits[0])
    && w.beforeReply == Done && w.before.exactTarget && w.exactBaseline && w.buildReply == Done
  }

  /** The artifact is fit to be published, and protected main has not moved. */
  ghost predicate Fit(w: World)
    requires Complete(w)
  {
    && Builds(w) && w.verifications[0] && w.preservesBaseline && w.policyExact
    && w.mainReplies[1] == Done && w.commits[1] == w.commits[0]
  }

  ghost predicate Acquires(w: World)
    requires Complete(w)
  {
    Fit(w) && w.acquireReply == Done
  }

  /** The supervised process is to be prepared. */
  ghost predicate Prepares(w: World)
    requires Complete(w)
  {
    Acquires(w) && w.postflightReply == Done && w.artifactPathValid
  }

  ghost predicate Supervises(w: World)
    requires Complete(w)
  {
    Prepares(w) && w.prepareReply == Done
  }

  /** All that a release needs: everything before it, two more verifications and the same commit between them. */
  ghost predicate MayRelease(w: World)
    requires Complete(w)
  {
    Supervises(w) && w.verifications[1] && w.mainReplies[2] == Done && w.commits[2] == w.commits[0] && w.verifications[2]
  }

  /** A failure whose containment could not be proven when the process was prepared. */
  ghost predicate LosesContainment(w: World)
    requires Complete(w)
  {
    Prepares(w) && w.prepareReply == Fails(true)
  }

  /** The submission error, if any: release, then completion. */
  ghost function Submission(w: World): Reply {
    if w.releaseReply.Fails? then w.releaseReply else w.completionReply
  }

  /** The postflight checks, in the source's order. */
  ghost predicate Reconciles(w: World)
    requires Complete(w)
  {
    && Submission(w) != Fails(true)
    && w.afterReply.Done? && w.after.exactTarget && w.afterPreserves && w.after.descriptor == w.built
    && w.policyReply.Done? && w.policyMatches
    && w.verifications[3]
  }

  /** The remote still shows exactly the baseline after a failed submission. */
  ghost predicate ProvenAbsent(w: World) {
    && Submission(w) == Fails(false)
    && w.afterReply.Done? && w.after.exactTarget && w.after.descriptor == w.before.descriptor
    && w.policyReply.Fails?
  }

  /** What the `finally` block does, in its order. */
  function Closing(supervised: bool, authorized: bool, built: bool, retained: bool): seq<Event> {
    Supervision(supervised, authorized) + Disposal(built, retained)
  }

  function Supervision(supervised: bool, authorized: bool): seq<Event> {
    (if supervised then [SupervisorCleaned] else []) + if authorized then [AuthorityClosed] else []
  }

  function Disposal(built: bool, retained: bool): seq<Event> {
    if built then [ArtifactClosed] + if retained then [] else [ArtifactRemoved] else []
  }

  /** What a release leads to: decided by the fresh reads, and then by the receipt. */
  ghost function AfterRelease(w: World): Outcome
    requires Complete(w)
  {
    if !Reconciles(w) then ManualStop(if ProvenAbsent(w) then OutcomeAbsent else OutcomeAmbiguous)
    else if !w.wellFormedDigest then Threw
    else if w.persistReply == Done && w.pointerValid then Published
    else ManualStop(ReceiptPersistence)
  }

  /** How the attempt ends, before the clean-up. */
  ghost function Attempted(w: World): Outcome
    requires Complete(w)
  {
    if MayRelease(w) then AfterRelease(w) else if LosesContainment(w) then ManualStop(OutcomeAmbiguous) else Threw
  }

  /** The clean-up of supervisor or authority could not be contained. */
  ghost predicate Uncontained(w: World)
    requires Complete(w)
  {
    (Supervises(w) && w.supervisorCleanupReply == Fails(true)) || (Acquires(w) && w.authorityCloseReply == Fails(true))
  }

  ghost predicate Retains(w: World)
    requires Complete(w)
  {
    Attempted(w).ManualStop? || Uncontained(w)
  }

  /** How a publication ends, over every pattern of failures. */
  ghost function OutcomeOf(w: World): Outcome
    requires Complete(w)
  {
    if Uncontained(w) then ManualStop(OutcomeAmbiguous)
    else if Attempted(w) == Published
            && !(w.supervisorCleanupReply == Done && w.authorityCloseReply == Done
                 && w.artifactCloseReply == Done && w.artifactCleanupReply == Done) then Threw
    else Attempted(w)
  }

  /** The events of the fresh reads after a release, and of the receipt. */
  ghost function FreshReads(w: World): seq<Event>
    requires Complete(w)
  {
    (if w.afterReply == Done then [ReadLive] else []) + (if w.policyReply == Done then [ReadPolicy] else [])
    + (if w.verifications[3] then [Verified] else []) + if AfterRelease(w) == Published then [Persisted] else []
  }

  lemma ClosingHolds(supervised: bool, authorized: bool, built: bool, retained: bool)
    ensures var closing := Closing(supervised, authorized, built, retained);
            && (ArtifactClosed in closing <==> built) && (ArtifactRemoved in closing <==> built && !retained)
            && (SupervisorCleaned in closing <==> supervised) && (AuthorityClosed in closing <==> authorized)
            && Released !in closing && Persisted !in closing && Built !in closing
  {
  }

  lemma StepsHold(w: World, k: nat)
    requires Complete(w) && k <= 11
    ensures var steps := Steps(w)[..k];
            && Released !in steps && Persisted !in steps && (Built in steps <==> k >= 3)
            && ArtifactClosed !in steps && ArtifactRemoved !in steps && SupervisorCleaned !in steps && AuthorityClosed !in steps
  {
    if k >= 3 { assert Steps(w)[..k][2] == Built; }
  }

  predicate OnlyReads(events: seq<Event>) {
    forall i | 0 <= i < |events| :: events[i] in {ReadLive, ReadPolicy, Verified, Persisted}
  }

  /** The whole trace of a released publication, piece by piece. */
  lemma ReleasedTrace(w: World, completed: bool, seen: seq<Event>, retained: bool)
    requires Complete(w) && OnlyReads(seen)
    ensures var sent := Steps(w) + [Released] + if completed then [Completed] else [];
            var trace := sent + seen + Closing(true, true, true, retained);
            && Steps(w) + [Released] <= trace && Released in trace && Released !in trace[12..]
            && (Persisted in trace <==> Persisted in seen)
            && (ArtifactRemoved in trace <==> !retained) && ArtifactClosed in trace && Built in trace
            && SupervisorCleaned in trace && AuthorityClosed in trace
  {
    hide Steps, Closing;
    StepsHold(w, 11);
    assert Steps(w)[..11] == Steps(w);
    ClosingHolds(true, true, true, retained);
    var sent := Steps(w) + [Released] + if completed then [Completed] else [];
    var closing := Closing(true, true, true, retained);
    var trace := sent + seen + closing;
    assert trace[11] == Released;
    assert trace[12..] == (if completed then [Completed] else []) + seen + closing;
  }

  class Publisher {
    const w: World
    var trace: seq<Event>
    var artifact: bool
    var authority: bool
    var supervisor: bool
    var retainArtifact: bool
    ghost var reached: nat // how many of `Steps` have been taken

    constructor (w: World)
      requires Complete(w)
      ensures this.w == w && Tracked() && reached == 0 && !retainArtifact
    {
      this.w, trace, reached := w, [], 0;
      artifact, authority, supervisor, retainArtifact := false, false, false, false;
    }

    /** The calls made so far, and the resources they acquired. */
    ghost predicate Tracked()
      reads this
    {
      && Complete(w) && reached <= 11 && trace == Steps(w)[..reached]
      && (artifact <==> reached >= 3) && (authority <==> reached >= 6) && (supervisor <==> reached >= 8)
    }

    /** The next call has been made. */
    method Log(event: Event)
      requires Complete(w) && reached < 11 && trace == Steps(w)[..reached] && event == Steps(w)[reached]
      modifies this`trace, this`reached
      ensures reached == old(reached) + 1 && trace == Steps(w)[..reached]
    {
      trace, reached := trace + [event], reached + 1;
    }

    method Attest(i: nat) returns (ok: bool)
      requires i < 3 && Complete(w) && reached < 11 && trace == Steps(w)[..reached]
      requires Steps(w)[reached] == Attested(w.commits[i])
      modifies this`trace, this`reached
      ensures ok <==> w.mainReplies[i].Done? && ValidCommit(w.commits[i])
      ensures reached == old(reached) + (if w.mainReplies[i].Done? then 1 else 0) && trace == Steps(w)[..reached]
    {
      hide Steps;
      if w.mainReplies[i].Fails? { return false; }
      Log(Attested(w.commits[i]));
      ok := |w.commits[i]| == 40 && forall c | c in w.commits[i] :: '0' <= c <= '9' || 'a' <= c <= 'f';
    }

    /** The baseline, the artifact built from it, and a second attestation of the same commit. */
    method BuildArtifact() returns (ok: bool)
      requires Tracked() && reached == 0
      modifies this`trace, this`reached, this`artifact
      ensures Tracked() && reached <= 5
      ensures ok <==> Fit(w)
      ensures ok ==> reached == 5
      ensures artifact <==> Builds(w)
    {
      hide ValidCommit;
      ok := Attest(0);
      if !ok || w.beforeReply.Fails? { return false; }
      Log(ReadLive);
      if !w.before.exactTarget || !w.exactBaseline || w.buildReply.Fails? { return false; }
      Log(Built);
      artifact := true;
      if !w.verifications[0] { return false; }
      Log(Verified);
      if !w.preservesBaseline || !w.policyExact { return false; }
      ok := Attest(1);
      ok := ok && w.commits[1] == w.commits[0];
    }

    /** The authority, the postflight, and a supervised process held back before its release. */
    method Supervise() returns (failure: Option<Outcome>)
      requires Tracked() && reached == 5 && !retainArtifact
      modifies this
      requires Fit(w)
      ensures Tracked() && 5 <= reached <= 8
      ensures failure.None? <==> Supervises(w)
      ensures failure.None? <==> reached == 8
      ensures authority <==> Acquires(w)
      ensures retainArtifact <==> LosesContainment(w)
      ensures failure.Some? ==> failure.value == (if LosesContainment(w) then ManualStop(OutcomeAmbiguous) else Threw)
    {
      failure := Some(Threw);
      if w.acquireReply.Fails? { return; }
      Log(Acquired);
      authority := true;
      if w.postflightReply.Fails? { return; }
      Log(PostflightPrepared);
      if !w.artifactPathValid { return; }
      if w.prepareReply.Fails? {
        retainArtifact := w.prepareReply.uncontained;
        return Some(if retainArtifact then ManualStop(OutcomeAmbiguous) else Threw);
      }
      Log(Supervised);
      supervisor := true;
      failure := None;
    }

    /** The last attestation between two verifications, and then the one release. */
    method Release() returns (released: bool)
      requires Tracked() && reached == 8 && Supervises(w)
      modifies this`trace, this`reached
      ensures released <==> MayRelease(w)
      ensures released ==> trace == Steps(w) + [Released] + if w.releaseReply.Done? then [Completed] else []
      ensures !released ==> Tracked() && reached >= 8
    {
      hide ValidCommit;
      released := false;
      if !w.verifications[1] { return; }
      Log(Verified);
      var ok := Attest(2);
      if !ok || w.commits[2] != w.commits[0] { return; }
      if !w.verifications[2] { return; }
      Log(Verified);
      assert trace == Steps(w);
      trace := trace + [Released];
      if w.releaseReply.Done? { trace := trace + [Completed]; }
      released := true;
    }

    /** What the release led to, by fresh reads alone. */
    method Reconcile() returns (outcome: Outcome)
      requires Complete(w) && artifact && !retainArtifact
      modifies this`trace, this`retainArtifact
      ensures trace == old(trace) + FreshReads(w)
      ensures outcome == AfterRelease(w)
      ensures retainArtifact == outcome.ManualStop?
    {
      ghost var was := trace;
      var submission := if w.releaseReply.Fails? then w.releaseReply else w.completionReply;
      if w.afterReply.Done? { trace := trace + [ReadLive]; }
      if w.policyReply.Done? { trace := trace + [ReadPolicy]; }
      if w.verifications[3] { trace := trace + [Verified]; }

      var reconciled := true;
      if submission.Fails? && submission.uncontained { reconciled := false; }
      else if w.afterReply.Fails? || !w.after.exactTarget { reconciled := false; }
      else if !w.afterPreserves || w.after.descriptor != w.built { reconciled := false; }
      else if w.policyReply.Fails? || !w.policyMatches { reconciled := false; }
      else if !w.verifications[3] { reconciled := false; }

      if !reconciled {
        retainArtifact := true;
        var exactBefore := w.afterReply.Done? && w.after.exactTarget && w.after.descriptor == w.before.descriptor;
        if submission.Fails? && !submission.uncontained && exactBefore && w.policyReply.Fails? {
          return ManualStop(OutcomeAbsent);
        }
        return ManualStop(OutcomeAmbiguous);
      }
      if !w.wellFormedDigest { return Threw; }
      if w.persistReply.Fails? || !w.pointerValid {
        retainArtifact := true;
        return ManualStop(ReceiptPersistence);
      }
      trace := trace + [Persisted];
      assert trace == was + FreshReads(w);
      outcome := Published;
    }

    /** The `finally` block: supervisor, authority, artifact, in this order, whatever happened. */
    method Finish(attempted: Outcome) returns (outcome: Outcome)
      requires Complete(w) && (retainArtifact ==> artifact)
      modifies this
      ensures retainArtifact == (old(retainArtifact) || UncontainedCleanup(old(supervisor), old(authority)))
      ensures trace == old(trace) + Closing(old(supervisor), old(authority), old(artifact), retainArtifact)
      ensures outcome
           == if UncontainedCleanup(old(supervisor), old(authority)) && old(artifact) then ManualStop(OutcomeAmbiguous)
              else if attempted == Published && CleanupFails(old(supervisor), old(authority), old(artifact), old(artifact) && !retainArtifact) then Threw
              else attempted
      ensures artifact == old(artifact)
    {
      var failed, uncontained := CloseSupervision();
      if uncontained { retainArtifact := true; }
      var left := CloseArtifact();
      if uncontained && artifact { return ManualStop(OutcomeAmbiguous); }
      outcome := if attempted == Published && (failed || left) then Threw else attempted;
    }

    /** The supervisor, then the authority; `uncontained` if one of them may still act. */
    method CloseSupervision() returns (failed: bool, uncontained: bool)
      modifies this`trace
      ensures trace == old(trace) + Supervision(supervisor, authority)
      ensures failed == CleanupFails(supervisor, authority, false, false)
      ensures uncontained == UncontainedCleanup(supervisor, authority)
    {
      failed, uncontained := false, false;
      if supervisor {
        trace := trace + [SupervisorCleaned];
        if w.supervisorCleanupReply.Fails? { failed, uncontained := true, w.supervisorCleanupReply.uncontained; }
      }
      if authority {
        trace := trace + [AuthorityClosed];
        if w.authorityCloseReply.Fails? { failed, uncontained := true, uncontained || w.authorityCloseReply.uncontained; }
      }
    }

    method CloseArtifact() returns (failed: bool)
      modifies this`trace
      ensures trace == old(trace) + Disposal(artifact, retainArtifact)
      ensures failed == CleanupFails(false, false, artifact, artifact && !retainArtifact)
    {
      failed := false;
      if artifact {
        trace := trace + [ArtifactClosed];
        if w.artifactCloseReply.Fails? { failed := true; }
        if !retainArtifact {
          trace := trace + [ArtifactRemoved];
          if w.artifactCleanupReply.Fails? { failed := true; }
        }
      }
    }

    predicate UncontainedCleanup(supervised: bool, authorized: bool) {
      (supervised && w.supervisorCleanupReply == Fails(true)) || (authorized && w.authorityCloseReply == Fails(true))
    }

    predicate CleanupFails(supervised: bool, authorized: bool, built: bool, removed: bool) {
      || (supervised && w.supervisorCleanupReply.Fails?) || (authorized && w.authorityCloseReply.Fails?)
      || (built && w.artifactCloseReply.Fails?) || (removed && w.artifactCleanupReply.Fails?)
    }

    /** `publishGenesis001Frozen` */
    method Publish() returns (outcome: Outcome)
      requires Tracked() && reached == 0 && !retainArtifact
      modifies this
      ensures outcome == OutcomeOf(w)
      // a release comes exactly if all its checks hold, and then once, after three equal attestations and a last verification
      ensures Released in trace <==> MayRelease(w)
      ensures Released in trace ==>
                && ValidCommit(w.commits[0]) && w.commits[0] == w.commits[1] == w.commits[2]
                && BeforeRelease(w.commits[0]) + [Released] <= trace
                && Released !in trace[12..]
      ensures Persisted in trace <==> MayRelease(w) && AfterRelease(w) == Published
      // whatever was acquired is closed, and the artifact goes exactly if nothing retains it
      ensures Built in trace <==> Builds(w)
      ensures SupervisorCleaned in trace <==> Supervises(w)
      ensures AuthorityClosed in trace <==> Acquires(w)
      ensures ArtifactClosed in trace <==> Builds(w)
      ensures ArtifactRemoved in trace <==> Builds(w) && !Retains(w)
      // once released, the artifact goes only with a persisted receipt, or with a digest the receipt rejects
      ensures Released in trace ==>
                (ArtifactRemoved in trace <==>
                   && Reconciles(w) && !Uncontained(w)
                   && (Persisted in trace || !w.wellFormedDigest))
      // a manual stop keeps the artifact, and absence is claimed only of a remote that still shows the baseline
      ensures outcome.ManualStop? ==> Built in trace && ArtifactRemoved !in trace
      ensures outcome == Published ==> Persisted in trace && ArtifactRemoved in trace
      ensures outcome == ManualStop(OutcomeAbsent) ==> Released in trace && ProvenAbsent(w)
    {
      hide Reconciles, ProvenAbsent, BeforeRelease, Steps, Closing, ValidCommit, AfterRelease, FreshReads, Builds, Fit, Acquires, Prepares, Supervises, MayRelease;
      NeedsChain(w);
      OutcomesMean(w);
      var prepared := BuildArtifact();
      var failure := Some(Threw);
      if prepared { failure := Supervise(); }
      if failure.Some? {
        StepsHold(w, reached);
        ClosingHolds(supervisor, authority, artifact, retainArtifact || UncontainedCleanup(supervisor, authority));
        outcome := Finish(failure.value);
        return;
      }
      var released := Release();
      if !released {
        StepsHold(w, reached);
        ClosingHolds(supervisor, authority, artifact, retainArtifact || UncontainedCleanup(supervisor, authority));
        outcome := Finish(Threw);
        return;
      }
      outcome := Reconcile();
      ReadsHold(w);
      ReleasedTrace(w, w.releaseReply.Done?, FreshReads(w), retainArtifact || UncontainedCleanup(true, true));
      EqualCommits(w);
      outcome := Finish(outcome);
    }
  }

  /** Each step needs the ones before it. */
  lemma NeedsChain(w: World)
    requires Complete(w)
    ensures MayRelease(w) ==> Supervises(w) && ValidCommit(w.commits[0]) && w.commits[0] == w.commits[1] == w.commits[2]
    ensures Supervises(w) ==> Prepares(w) && w.prepareReply == Done
    ensures Prepares(w) ==> Acquires(w)
    ensures Acquires(w) ==> Fit(w)
    ensures Fit(w) ==> Builds(w)
  {
    hide ValidCommit;
  }

  /** What the outcomes say of artifact, receipt and remote. */
  lemma OutcomesMean(w: World)
    requires Complete(w)
    ensures OutcomeOf(w).ManualStop? ==> Builds(w) && Retains(w)
    ensures OutcomeOf(w) == Published ==> MayRelease(w) && AfterRelease(w) == Published && !Retains(w)
    ensures OutcomeOf(w) == ManualStop(OutcomeAbsent) ==> MayRelease(w) && ProvenAbsent(w)
    ensures MayRelease(w) ==>
              (!Retains(w) <==> Reconciles(w) && !Uncontained(w) && (AfterRelease(w) == Published || !w.wellFormedDigest))
    ensures MayRelease(w) ==> Builds(w)
  {
    hide Reconciles, ProvenAbsent, ValidCommit;
  }

  lemma ReadsHold(w: World)
    requires Complete(w)
    ensures OnlyReads(FreshReads(w)) && (Persisted in FreshReads(w) <==> AfterRelease(w) == Published)
  {
    hide AfterRelease;
    var shown := (if w.afterReply == Done then [ReadLive] else []) + (if w.policyReply == Done then [ReadPolicy] else [])
                 + if w.verifications[3] then [Verified] else [];
    assert FreshReads(w) == shown + if AfterRelease(w) == Published then [Persisted] else [];
  }

  lemma EqualCommits(w: World)
    requires Complete(w) && w.commits[0] == w.commits[1] == w.commits[2]
    ensures Steps(w) == BeforeRelease(w.commits[0])
  {
  }
}
