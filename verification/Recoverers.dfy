/**
 Several recovering processes over one journal. Claims are read, probed, installed, given up
 and disposed of as in `ClaimChain`; the journal changes as in `JournalMachine`, but nothing
 says beforehand who may write to it: a process writes from the moment its claim passes the
 write check until it begins to dispose of the claims, and checks no more in between
 (scripts/greater-realm-cutover-receipts.ts and greater-realm-cutover-operation-journal.ts).
 */
module Recoverers {
  import opened Wrappers
  import opened SnapshotRules
  import opened JournalRecords
  import opened JournalLayout
  import J = JournalMachine
  import JournalSafety
  import JournalTheorems
  import C = ClaimChain

  /** `started`: the processes whose claim has passed the write check of a recovery. */
  datatype World = World(journal: J.State, owners: C.State, started: set<nat>)

  datatype Event =
    | Operator(step: J.Label)             // the process that took the lock, or its death
    | Server(step: J.Label)               // the request in flight is executed or lost
    | Claiming(claim: C.Label)            // claim files, probes and deaths of recovering processes
    | Begin(process: nat)                 // the write check at the start of a recovery
    | Write(process: nat, step: J.Label)  // a step of the recovery it started
    | Finish(process: nat)                // after disposal: the last group, the command record, the lock

  ghost predicate OperatorLives(w: World) {
    w.journal.process.Live? && !w.journal.process.recovering
  }

  ghost predicate OperatorStep(l: J.Label) {
    !l.Execute? && !l.Lose? && !l.Claim? && !l.Dispose? && !l.Recover?
  }

  ghost predicate RecoveryStep(l: J.Label) {
    OperatorStep(l) && !l.Crash? && !l.DropTerminalGroup? && !l.DropTerminalCommand? && !l.ReleaseLock?
  }

  /** Nothing is left of the journal but the two authorities that go last. */
  ghost predicate Stripped(dir: Directory) {
    && dir.operations == [] && |dir.groups| <= 1 && |dir.commands| <= 1
    && (dir.commands == [] ==> dir.groups == [] || dir.groups[0].phase == JournalRecords.Started)
    && (dir.commands != [] ==> J.CleaningUp(dir))
  }

  /** The journal as a process finds it that has just begun to recover: earlier requests are no longer in flight. */
  ghost function TakenOver(j: J.State): J.State {
    j.(process := J.Live(true, None, false), inflight := None)
  }

  ghost function FinalStep(dir: Directory): J.Label {
    if dir.groups != [] then J.DropTerminalGroup
    else if dir.commands != [] then J.DropTerminalCommand
    else J.ReleaseLock
  }

  ghost predicate CanHappen(w: World, e: Event) {
    match e
    case Operator(l) => OperatorLives(w) && OperatorStep(l) && J.Enabled(w.journal, l)
    case Server(l) => (l.Execute? || l.Lose?) && J.Enabled(w.journal, l)
    case Claiming(l) =>
      && C.Enabled(w.owners, l)
      && (l.ReadOwners? ==> !OperatorLives(w) && w.journal.dir.lock && HasWal(w.journal.dir))
      && (l.BeginAbandon? ==> l.process !in w.started)
      && (l.BeginDispose? ==> l.process in w.started && Stripped(w.journal.dir))
    case Begin(p) =>
      !OperatorLives(w) && w.journal.dir.lock && HasWal(w.journal.dir) && p !in w.started && C.Authorized(w.owners, p)
    case Write(p, l) =>
      && p in w.started && p in w.owners.alive && C.LocalOf(w.owners, p).Claimed?
      && RecoveryStep(l) && J.Enabled(w.journal, l)
    case Finish(p) =>
      && p in w.owners.alive && C.LocalOf(w.owners, p).Released? && w.journal.dir.lock
      && J.Enabled(TakenOver(w.journal), FinalStep(w.journal.dir))
  }

  ghost function After(w: World, e: Event): World
    requires CanHappen(w, e)
  {
    match e
    case Operator(l) => w.(journal := J.Next(w.journal, l))
    case Server(l) => w.(journal := J.Next(w.journal, l))
    case Claiming(l) => w.(owners := C.Step(w.owners, l))
    case Begin(p) => w.(journal := TakenOver(w.journal), started := w.started + {p})
    case Write(_, l) => w.(journal := J.Next(w.journal, l))
    case Finish(_) => w.(journal := J.Next(TakenOver(w.journal), FinalStep(w.journal.dir)))
  }

  ghost predicate Init(w: World) {
    J.Init(w.journal) && w.owners.claims == map[] && w.owners.locals == map[] && w.started == {}
  }

  ghost predicate IsRun(worlds: seq<World>, events: seq<Event>) {
    && |worlds| == |events| + 1
    && Init(worlds[0])
    && forall i | 0 <= i < |events| :: CanHappen(worlds[i], events[i]) && worlds[i + 1] == After(worlds[i], events[i])
  }

  // ---------------------------------------------------------------------- the invariant

  ghost predicate Writes(w: World, p: nat) {
    p in w.started && p in w.owners.alive && C.LocalOf(w.owners, p).Claimed?
  }

  ghost predicate Leaving(local: C.Local) {
    local.Disposing? || local.Released?
  }

  /** Whoever has started a recovery has a claim, or is through with it. */
  ghost predicate StartedHold(w: World) {
    && (forall p | p in w.started :: C.LocalOf(w.owners, p).Claimed? || Leaving(C.LocalOf(w.owners, p)))
    && (forall p | p in w.owners.locals && Leaving(w.owners.locals[p]) :: p in w.started && Stripped(w.journal.dir))
  }

  /** A live process's claim stays on file until it gives it up itself. */
  ghost predicate ClaimsOnFile(c: C.State) {
    forall p | p in c.locals && p in c.alive && c.locals[p].Claimed? :: C.Holds(c, p)
  }

  /** At most one process at a time may write to the journal. */
  ghost predicate OneWriter(w: World) {
    forall p, q | Writes(w, p) && Writes(w, q) :: p == q
  }

  ghost predicate Inv(w: World) {
    && J.Inv(w.journal) && w.journal.dir.claims == 0
    && C.Inv(w.owners)
    && StartedHold(w) && ClaimsOnFile(w.owners) && OneWriter(w)
    && (OperatorLives(w) ==> w.owners.claims == map[] && w.owners.locals == map[])
  }

  lemma TakenOverKeeps(j: J.State)
    requires J.Inv(j) && j.dir.lock
    ensures J.Inv(TakenOver(j))
  {
    hide J.Inv;
    var dead := if j.process.Live? then J.Next(j, J.Crash) else j;
    if j.process.Live? { JournalSafety.StepKeeps(j, J.Crash); }
    JournalSafety.StepKeeps(dead, J.Recover);
  }

  /** Every event is a step of the journal's own machine, a change of hands, or leaves the journal alone. */
  lemma JournalKeeps(w: World, e: Event)
    requires J.Inv(w.journal) && w.journal.dir.claims == 0 && CanHappen(w, e)
    ensures J.Inv(After(w, e).journal)
  {
    hide J.Inv, J.Enabled, J.Next;
    match e
    case Operator(l) => JournalSafety.StepKeeps(w.journal, l);
    case Server(l) => JournalSafety.StepKeeps(w.journal, l);
    case Write(_, l) => JournalSafety.StepKeeps(w.journal, l);
    case Begin(_) => TakenOverKeeps(w.journal);
    case Finish(_) =>
      TakenOverKeeps(w.journal);
      JournalSafety.StepKeeps(TakenOver(w.journal), FinalStep(w.journal.dir));
    case Claiming(_) =>
  }

  lemma NoClaimCounted(j: J.State, l: J.Label)
    requires J.Enabled(j, l) && !l.Claim? && !l.Dispose?
    ensures J.Next(j, l).dir.claims == j.dir.claims
  {
    hide J.Inv;
  }

  /** Once the journal is stripped no step but the last three changes its files. */
  lemma StrippedStays(j: J.State, l: J.Label)
    requires Stripped(j.dir) && J.Enabled(j, l) && (l.Execute? || l.Lose? || RecoveryStep(l))
    requires j.process.Live? ==> j.process.recovering
    ensures Stripped(J.Next(j, l).dir)
  {
    hide ExpectedAfterMatches, ValidCommandFiles, ExpectedReceipt;
  }

  lemma FinishStrips(j: J.State)
    requires Stripped(j.dir) && J.Enabled(j, FinalStep(j.dir))
    ensures Stripped(J.Next(j, FinalStep(j.dir)).dir)
  {
    hide ExpectedReceipt;
  }

  lemma OperatorStaysAway(j: J.State, l: J.Label)
    requires J.Enabled(j, l) && !l.Recover?
    ensures var t := J.Next(j, l); t.process.Live? && !t.process.recovering ==> j.process.Live? && !j.process.recovering
  {
    hide ExpectedAfterMatches, ValidCommandFiles, ExpectedReceipt, J.Advance, J.AdvanceGroup;
  }

  // ------------------------------------------------------------- what each event keeps

  lemma ClaimsStayOnFile(c: C.State, l: C.Label)
    requires C.Inv(c) && ClaimsOnFile(c) && C.Enabled(c, l)
    ensures ClaimsOnFile(C.Step(c, l))
  {
    hide C.RecoveryOwners, C.Linked, C.Authorized, C.Listing;
    var t := C.Step(c, l);
    assert C.LocalHolds(c, l.process, C.LocalOf(c, l.process));
    forall p | p in t.locals && p in t.alive && t.locals[p].Claimed? ensures C.Holds(t, p) {
      if p != l.process {
        assert C.LocalOf(t, p) == C.LocalOf(c, p) && C.LocalHolds(c, p, C.LocalOf(c, p));
        assert C.Holds(c, p);
      }
    }
  }

  lemma ClaimingKeeps(w: World, l: C.Label)
    requires Inv(w) && CanHappen(w, Claiming(l))
    ensures Inv(After(w, Claiming(l)))
  {
    hide J.Inv, C.Inv, C.RecoveryOwners, C.Linked, HasWal, Stripped, ClaimsOnFile;
    C.StepKeeps(w.owners, l);
    ClaimsStayOnFile(w.owners, l);
    var t := After(w, Claiming(l));
    forall p | p in t.started ensures C.LocalOf(t.owners, p).Claimed? || Leaving(C.LocalOf(t.owners, p)) {
      assert C.LocalOf(w.owners, p).Claimed? || Leaving(C.LocalOf(w.owners, p));
    }
    forall p | Writes(t, p) ensures Writes(w, p) {
      assert C.LocalOf(w.owners, p).Claimed? || Leaving(C.LocalOf(w.owners, p));
    }
    forall p | p in t.owners.locals && Leaving(t.owners.locals[p]) ensures p in t.started && Stripped(t.journal.dir) {
      if p != l.process { assert t.owners.locals[p] == w.owners.locals[p]; }
    }
  }

  lemma BeginKeeps(w: World, p: nat)
    requires Inv(w) && CanHappen(w, Begin(p))
    ensures Inv(After(w, Begin(p)))
  {
    hide J.Inv, C.Inv, C.RecoveryOwners, C.Linked, HasWal, Stripped;
    TakenOverKeeps(w.journal);
    C.AuthorizedHolds(w.owners, p);
    forall q | Writes(w, q) ensures q == p {
      assert C.Holds(w.owners, q);
      C.OneHolder(w.owners, C.RecoveryOwners(w.owners.claims).value, p, q);
    }
    assert forall q | Writes(After(w, Begin(p)), q) :: q == p || Writes(w, q);
  }

  lemma OperatorKeeps(w: World, l: J.Label)
    requires Inv(w) && CanHappen(w, Operator(l))
    ensures Inv(After(w, Operator(l)))
  {
    hide J.Inv, J.Enabled, J.Next, C.Inv, C.RecoveryOwners, Stripped;
    JournalKeeps(w, Operator(l));
    NoClaimCounted(w.journal, l);
  }

  lemma SameWriters(w: World, t: World)
    requires OneWriter(w) && t.owners == w.owners && t.started == w.started
    ensures OneWriter(t)
  {
    assert forall p | Writes(t, p) :: Writes(w, p);
  }

  lemma ServerKeeps(w: World, l: J.Label)
    requires Inv(w) && CanHappen(w, Server(l))
    ensures Inv(After(w, Server(l)))
  {
    hide J.Inv, J.Enabled, J.Next, C.Inv, C.RecoveryOwners, Stripped;
    JournalKeeps(w, Server(l));
    NoClaimCounted(w.journal, l);
    OperatorStaysAway(w.journal, l);
    LeavingKeeps(w, l);
    SameWriters(w, w.(journal := J.Next(w.journal, l)));
  }

  lemma WriteKeeps(w: World, p: nat, l: J.Label)
    requires Inv(w) && CanHappen(w, Write(p, l))
    ensures Inv(After(w, Write(p, l)))
  {
    hide J.Inv, J.Enabled, J.Next, C.Inv, C.RecoveryOwners, Stripped;
    JournalKeeps(w, Write(p, l));
    NoClaimCounted(w.journal, l);
    OperatorStaysAway(w.journal, l);
    LeavingKeeps(w, l);
    SameWriters(w, w.(journal := J.Next(w.journal, l)));
  }

  /** While some process is through with its recovery, the journal stays stripped. */
  lemma LeavingKeeps(w: World, l: J.Label)
    requires Inv(w) && J.Enabled(w.journal, l) && (l.Execute? || l.Lose? || RecoveryStep(l))
    ensures forall p | p in w.owners.locals && Leaving(w.owners.locals[p]) :: Stripped(J.Next(w.journal, l).dir)
  {
    hide J.Inv, J.Enabled, J.Next, C.Inv, C.RecoveryOwners, Stripped;
    forall p | p in w.owners.locals && Leaving(w.owners.locals[p]) ensures Stripped(J.Next(w.journal, l).dir) {
      StrippedStays(w.journal, l);
    }
  }

  lemma FinishKeeps(w: World, p: nat)
    requires Inv(w) && CanHappen(w, Finish(p))
    ensures Inv(After(w, Finish(p)))
  {
    hide J.Inv, J.Enabled, J.Next, C.Inv, C.RecoveryOwners, Stripped;
    JournalKeeps(w, Finish(p));
    var j := TakenOver(w.journal);
    NoClaimCounted(j, FinalStep(j.dir));
    OperatorStaysAfterFinish(j);
    assert Stripped(j.dir);
    FinishStrips(j);
    SameWriters(w, After(w, Finish(p)));
  }

  lemma OperatorStaysAfterFinish(j: J.State)
    requires j.process.Live? && j.process.recovering && J.Enabled(j, FinalStep(j.dir))
    ensures J.Next(j, FinalStep(j.dir)).process == j.process
  {
    hide ExpectedReceipt, ValidCommandFiles;
  }

  lemma EventKeeps(w: World, e: Event)
    requires Inv(w) && CanHappen(w, e)
    ensures Inv(After(w, e))
  {
    hide *;
    match e
    case Operator(l) => OperatorKeeps(w, l);
    case Server(l) => ServerKeeps(w, l);
    case Claiming(l) => ClaimingKeeps(w, l);
    case Begin(p) => BeginKeeps(w, p);
    case Write(p, l) => WriteKeeps(w, p, l);
    case Finish(p) => FinishKeeps(w, p);
  }

  /** Any number of competing recoverers, in any interleaving: the journal's invariant, and one writer at a time. */
  lemma {:induction false} EveryRunKeeps(worlds: seq<World>, events: seq<Event>, i: nat)
    requires IsRun(worlds, events) && i < |worlds|
    ensures Inv(worlds[i])
  {
    hide Inv, CanHappen, After, J.Inv;
    if i == 0 {
      StartHolds(worlds[0]);
    } else {
      EveryRunKeeps(worlds, events, i - 1);
      assert CanHappen(worlds[i - 1], events[i - 1]);
      EventKeeps(worlds[i - 1], events[i - 1]);
    }
  }

  lemma StartHolds(w: World)
    requires Init(w)
    ensures Inv(w)
  {
    hide J.Inv;
    J.InitIsSafe(w.journal);
  }

  /** Exactly once, however many processes recover at the same time. */
  lemma CompetingRecoveryIsExactlyOnce(worlds: seq<World>, events: seq<Event>, i: nat)
    requires IsRun(worlds, events) && i < |worlds|
    ensures var s := worlds[i].journal; JournalTheorems.ExactlyOnce(s)
    ensures forall p, q | Writes(worlds[i], p) && Writes(worlds[i], q) :: p == q
  {
    hide IsRun, J.Inv, C.Inv;
    EveryRunKeeps(worlds, events, i);
    JournalTheorems.SafeMeansExactlyOnce(worlds[i].journal);
  }

  /** A process that is through with the claims can take its last three steps, whatever others did. */
  lemma FinishIsPossible(w: World, p: nat)
    requires Inv(w) && p in w.owners.alive && C.LocalOf(w.owners, p).Released? && w.journal.dir.lock
    ensures CanHappen(w, Finish(p))
  {
    hide J.Inv, C.Inv, C.RecoveryOwners, ExpectedReceipt;
    assert Stripped(w.journal.dir);
  }

  // ---------------------------------------------------------------- what a reader is shown

  /** The inspection of a directory with these claims in it: the chain of claims is read first. */
  ghost function Mode(w: World): RecoveryMode {
    if C.RecoveryOwners(w.owners.claims).None? then Rejected
    else InspectMode(w.journal.dir.(claims := |w.owners.claims|))
  }

  /** A directory is rejected for its claims alone: they form no chain, or there is nothing left to recover. */
  lemma RejectedForClaims(w: World)
    requires Inv(w)
    ensures Mode(w) == Rejected <==>
              C.RecoveryOwners(w.owners.claims).None? || (!HasWal(w.journal.dir) && w.owners.claims != map[])
    ensures Mode(w) != Rejected && w.journal.dir.groups != [] ==> Mode(w) == JournalMode && RecoveryAdmits(w.journal.dir)
    ensures Mode(w) != Rejected && w.journal.dir.groups == [] && HasWal(w.journal.dir) ==> Mode(w) == CommandReceiptMode
    ensures Mode(w) != Rejected && !HasWal(w.journal.dir) ==> Mode(w) == LockOnlyMode
  {
    hide J.Inv, C.Inv, C.RecoveryOwners, RecoveryAdmits, ValidGroupFiles, ExpectedReceipt, Stripped;
    JournalTheorems.ReachableMode(w.journal);
    assert |w.owners.claims| == 0 <==> w.owners.claims == map[];
  }

  /**
   The events after which a directory is rejected that was not before: a claim is installed
   although the claims are not those its process read, or the journal is gone; a process
   disposes of a claim below a newer one; the last journal file goes while a claim is left.
   */
  ghost predicate Spoils(w: World, e: Event) {
    match e
    case Claiming(l) =>
      || Breaks(w.owners, l)
      || (l.Install? && !HasWal(w.journal.dir) && C.LocalOf(w.owners, l.process).Probed?
          && |C.LocalOf(w.owners, l.process).owners| + 1 !in w.owners.claims)
    case Finish(_) => w.owners.claims != map[] && |w.journal.dir.groups| + |w.journal.dir.commands| == 1
    case _ => false
  }

  lemma ExtendsItsChain(claims: map<nat, C.Claim>, owners: seq<C.Claim>, read: seq<C.Claim>, claim: C.Claim, chain: seq<C.Claim>)
    requires C.IsChain(claims, owners) && C.Linked(read)
    requires |read| + 1 !in claims && C.LinksTo(claim, read, |read|)
    requires C.IsChain(claims[|read| + 1 := claim], chain)
    ensures read == owners
  {
    var more := claims[|read| + 1 := claim];
    C.ChainCounts(more, chain);
    C.ChainCounts(claims, owners);
    assert |chain| == |owners| + 1 && |owners| + 1 in more && |read| == |owners|;
    assert chain[|read|] == claim && C.LinksTo(chain[|read|], chain, |read|);
    assert read != [] ==> more[|read|] == claims[|read|] && chain[|read| - 1] == owners[|read| - 1];
    C.LastFixesChain(read, owners);
  }

  /** A claim that follows other claims than those on file breaks the chain. */
  lemma StaleClaimBreaks(claims: map<nat, C.Claim>, owners: seq<C.Claim>, read: seq<C.Claim>, claim: C.Claim)
    requires C.IsChain(claims, owners) && C.Linked(read) && read != owners
    requires |read| + 1 !in claims && C.LinksTo(claim, read, |read|)
    ensures C.RecoveryOwners(claims[|read| + 1 := claim]).None?
  {
    hide C.RecoveryOwners, C.IsChain, C.Linked;
    if C.RecoveryOwners(claims[|read| + 1 := claim]).Some? {
      ExtendsItsChain(claims, owners, read, claim, C.RecoveryOwners(claims[|read| + 1 := claim]).value);
    }
  }

  /** So does removing a claim that is not the newest. */
  lemma GapBreaks(claims: map<nat, C.Claim>, owners: seq<C.Claim>, k: nat)
    requires C.IsChain(claims, owners) && 1 <= k < |owners|
    ensures C.RecoveryOwners(claims - {k}).None?
  {
    hide C.RecoveryOwners, C.Linked;
    C.ChainCounts(claims, owners);
    assert |owners| in claims - {k} && |claims - {k}| < |claims|;
    if C.RecoveryOwners(claims - {k}).Some? {
      C.ChainCounts(claims - {k}, C.RecoveryOwners(claims - {k}).value);
    }
  }

  lemma RemovalDecides(claims: map<nat, C.Claim>, owners: seq<C.Claim>, k: nat)
    requires C.IsChain(claims, owners) && k in claims
    ensures C.RecoveryOwners(claims - {k}).None? <==> k < |owners|
  {
    hide C.RecoveryOwners, C.Linked;
    if k < |owners| {
      GapBreaks(claims, owners, k);
    } else {
      C.ShorterChain(claims, owners);
      C.RecoveryOwnersAre(claims - {k}, owners[..k - 1]);
    }
  }

  /** Claims that were a chain and are none after the step of a process. */
  ghost predicate Breaks(c: C.State, l: C.Label) {
    match l
    case Install(p, _) =>
      var local := C.LocalOf(c, p);
      local.Probed? && |local.owners| + 1 !in c.claims && C.RecoveryOwners(c.claims) != Some(local.owners)
    case Unlink(p) =>
      var local := C.LocalOf(c, p);
      && local.Disposing? && 0 < local.left <= |local.chain| && local.left < |c.claims|
      && C.Without(c.claims, local.chain[local.left - 1]) != c.claims
    case _ => false
  }

  lemma InstallBreaks(c: C.State, p: nat, claimId: nat)
    requires C.Inv(c) && C.Enabled(c, C.Install(p, claimId)) && C.RecoveryOwners(c.claims).Some?
    ensures C.RecoveryOwners(C.Step(c, C.Install(p, claimId)).claims).None? <==> Breaks(c, C.Install(p, claimId))
  {
    hide C.RecoveryOwners, C.Linked, C.IsChain, C.Inv;
    var local := C.LocalOf(c, p);
    assert C.LocalHolds(c, p, local) by { LocalOfHolds(c, p); }
    if |local.owners| + 1 !in c.claims {
      var owners, claim := C.RecoveryOwners(c.claims).value, C.NextClaim(local.owners, p, claimId);
      if local.owners == owners {
        C.ExtendedChain(c.claims, owners, claim);
      } else {
        StaleClaimBreaks(c.claims, owners, local.owners, claim);
      }
    }
  }

  lemma LocalOfHolds(c: C.State, p: nat)
    requires C.Inv(c)
    ensures C.LocalHolds(c, p, C.LocalOf(c, p))
  {
    hide C.Linked;
  }

  lemma UnlinkBreaks(c: C.State, p: nat)
    requires C.Inv(c) && C.Enabled(c, C.Unlink(p)) && C.RecoveryOwners(c.claims).Some?
    ensures C.RecoveryOwners(C.Step(c, C.Unlink(p)).claims).None? <==> Breaks(c, C.Unlink(p))
  {
    hide C.RecoveryOwners, C.Linked, C.IsChain, C.Inv;
    var local := C.LocalOf(c, p);
    assert C.LocalHolds(c, p, local) by { LocalOfHolds(c, p); }
    var owners := C.RecoveryOwners(c.claims).value;
    C.ChainCounts(c.claims, owners);
    if 0 < local.left <= |local.chain| && C.Without(c.claims, local.chain[local.left - 1]) != c.claims {
      RemovalDecides(c.claims, owners, local.left);
    }
  }

  lemma AbandonBreaksNothing(c: C.State, p: nat)
    requires C.Inv(c) && C.Enabled(c, C.Abandon(p)) && C.RecoveryOwners(c.claims).Some?
    ensures C.RecoveryOwners(C.Step(c, C.Abandon(p)).claims).Some?
  {
    hide C.RecoveryOwners, C.Linked, C.Inv;
    var claim := C.LocalOf(c, p).claim;
    assert C.LocalHolds(c, p, C.LocalOf(c, p)) by { LocalOfHolds(c, p); }
    var owners := C.RecoveryOwners(c.claims).value;
    if C.Without(c.claims, claim) != c.claims {
      assert owners[claim.ordinal - 1] == claim;
      if claim.ordinal < |owners| { C.EarlierAreDead(c, owners, claim.ordinal - 1); }
      RemovalDecides(c.claims, owners, claim.ordinal);
    }
  }

  /** The two steps that break a chain of claims, and no others do. */
  lemma ChainBreaks(c: C.State, l: C.Label)
    requires C.Inv(c) && C.Enabled(c, l) && C.RecoveryOwners(c.claims).Some?
    ensures C.RecoveryOwners(C.Step(c, l).claims).None? <==> Breaks(c, l)
  {
    hide C.RecoveryOwners, C.Inv, C.LocalHolds;
    match l
    case Install(p, claimId) => InstallBreaks(c, p, claimId);
    case Unlink(p) => UnlinkBreaks(c, p);
    case Abandon(p) => AbandonBreaksNothing(c, p);
    case _ =>
  }

  /** Only an installation adds a claim. */
  lemma ClaimsAppear(c: C.State, l: C.Label)
    requires C.Enabled(c, l) && c.claims == map[]
    ensures C.Step(c, l).claims != map[] <==> l.Install? && |C.LocalOf(c, l.process).owners| + 1 !in c.claims
  {
    hide C.RecoveryOwners;
  }

  // --------------------------------------------------- how the journal's files come and go

  lemma WalByStage(j: J.State)
    requires J.Inv(j)
    ensures HasWal(j.dir) <==> !j.stage.Fresh? && !j.stage.Finished?
  {
    hide J.RemoteInv, J.ReceiptsKept, J.IdsDistinct, TerminalHolds, DoneFiles, ChainDigest;
  }

  lemma StageStays(j: J.State, l: J.Label)
    requires J.Enabled(j, l) && (l.Execute? || l.Lose? || RecoveryStep(l))
    requires !j.stage.Fresh? && !j.stage.Finished?
    ensures var stage := J.Next(j, l).stage; !stage.Fresh? && !stage.Finished?
  {
    hide ExpectedAfterMatches, ValidCommandFiles, ExpectedReceipt, J.Advance, J.AdvanceGroup, J.ActivePhase, J.Accepting;
  }

  /** No step of a recovery but the last ones takes the last journal file away. */
  lemma WalStays(j: J.State, l: J.Label)
    requires J.Inv(j) && J.Enabled(j, l) && (l.Execute? || l.Lose? || RecoveryStep(l)) && HasWal(j.dir)
    ensures HasWal(J.Next(j, l).dir)
  {
    hide J.Inv, J.Enabled, J.Next;
    WalByStage(j);
    StageStays(j, l);
    JournalSafety.StepKeeps(j, l);
    WalByStage(J.Next(j, l));
  }

  lemma FinalStepTakes(j: J.State)
    requires Stripped(j.dir) && J.Enabled(j, FinalStep(j.dir))
    ensures HasWal(J.Next(j, FinalStep(j.dir)).dir) <==> |j.dir.groups| + |j.dir.commands| > 1
    ensures HasWal(j.dir) <==> |j.dir.groups| + |j.dir.commands| > 0
  {
    hide ExpectedReceipt, ValidCommandFiles;
  }

  // ---------------------------------------------------------------------- the exact steps

  lemma ClaimingSpoils(w: World, l: C.Label)
    requires Inv(w) && CanHappen(w, Claiming(l)) && Mode(w) != Rejected
    ensures Mode(After(w, Claiming(l))) == Rejected <==> Spoils(w, Claiming(l))
  {
    hide J.Inv, C.Inv, C.RecoveryOwners, C.Step, Mode, Breaks, Stripped;
    EventKeeps(w, Claiming(l));
    RejectedForClaims(w);
    RejectedForClaims(After(w, Claiming(l)));
    ChainBreaks(w.owners, l);
    if w.owners.claims == map[] { ClaimsAppear(w.owners, l); }
  }

  lemma WriteSpoilsNothing(w: World, e: Event)
    requires Inv(w) && CanHappen(w, e) && Mode(w) != Rejected && (e.Operator? || e.Server? || e.Write? || e.Begin?)
    ensures Mode(After(w, e)) != Rejected
  {
    hide J.Inv, J.Enabled, J.Next, C.Inv, C.RecoveryOwners, Mode, Stripped, HasWal;
    EventKeeps(w, e);
    RejectedForClaims(w);
    RejectedForClaims(After(w, e));
    if HasWal(w.journal.dir) && (e.Server? || e.Write?) { WalStays(w.journal, e.step); }
  }

  lemma FinishSpoils(w: World, p: nat)
    requires Inv(w) && CanHappen(w, Finish(p)) && Mode(w) != Rejected
    ensures Mode(After(w, Finish(p))) == Rejected <==> Spoils(w, Finish(p))
  {
    hide J.Inv, J.Enabled, J.Next, C.Inv, C.RecoveryOwners, Mode, Stripped, HasWal;
    EventKeeps(w, Finish(p));
    RejectedForClaims(w);
    RejectedForClaims(After(w, Finish(p)));
    assert Stripped(w.journal.dir);
    FinalStepTakes(TakenOver(w.journal));
  }

  /** A directory that a reader accepts is rejected after an event exactly if that event spoils it. */
  lemma RejectedExactlyWhenSpoiled(w: World, e: Event)
    requires Inv(w) && CanHappen(w, e) && Mode(w) != Rejected
    ensures Mode(After(w, e)) == Rejected <==> Spoils(w, e)
  {
    hide Inv, CanHappen, Mode, After;
    match e
    case Claiming(l) => ClaimingSpoils(w, l);
    case Finish(p) => FinishSpoils(w, p);
    case _ => WriteSpoilsNothing(w, e);
  }

  // ------------------------------------------------------------------------ orderly runs

  /**
   An installation that comes late: the claims on file are not those its process read, the
   journal is gone, or a live process is on its way out.
   */
  ghost predicate Late(w: World, e: Event) {
    && e.Claiming? && e.claim.Install? && C.LocalOf(w.owners, e.claim.process).Probed?
    && |C.LocalOf(w.owners, e.claim.process).owners| + 1 !in w.owners.claims
    && (|| C.RecoveryOwners(w.owners.claims) != Some(C.LocalOf(w.owners, e.claim.process).owners)
        || !HasWal(w.journal.dir)
        || exists p :: LivesLeaving(w.owners, p))
  }

  ghost predicate LivesLeaving(c: C.State, p: nat) {
    p in c.alive && Leaving(C.LocalOf(c, p))
  }

  /** The claims on file are a chain, and all that a live process on its way out has not unlinked yet. */
  ghost predicate Orderly(c: C.State) {
    && C.RecoveryOwners(c.claims).Some?
    && (forall p | LivesLeaving(c, p) :: if C.LocalOf(c, p).Released? then c.claims == map[] else C.PrefixLeft(c, p))
    && (forall p, q | LivesLeaving(c, p) && LivesLeaving(c, q) && C.LocalOf(c, p).Disposing? && C.LocalOf(c, q).Disposing? :: p == q)
  }

  /** A claim of a live process that others are still to unlink is its own. */
  lemma PrefixHolder(c: C.State, p: nat, q: nat)
    requires C.Inv(c) && C.PrefixLeft(c, p) && C.Holds(c, q)
    ensures p == q
  {
    hide C.RecoveryOwners, C.Linked, C.Inv;
    assert C.LocalHolds(c, q, C.LocalOf(c, q)) by { LocalOfHolds(c, q); }
    C.OnFileInPrefix(c, p, C.LocalOf(c, q).claim.ordinal);
  }

  lemma DisposalIsOrderly(c: C.State, p: nat)
    requires C.Inv(c) && Orderly(c) && C.Enabled(c, C.BeginDispose(p))
    ensures Orderly(C.Step(c, C.BeginDispose(p)))
  {
    hide C.RecoveryOwners, C.Linked, C.Inv, C.IsChain;
    C.DisposalBegins(c, p);
    C.AuthorizedHolds(c, p);
    var t := C.Step(c, C.BeginDispose(p));
    forall q | LivesLeaving(t, q) && q != p ensures false {
      assert LivesLeaving(c, q);
      if C.LocalOf(c, q).Disposing? { PrefixHolder(c, q, p); }
    }
  }

  lemma UnlinkIsOrderly(c: C.State, p: nat)
    requires C.Inv(c) && Orderly(c) && C.Enabled(c, C.Unlink(p))
    ensures Orderly(C.Step(c, C.Unlink(p)))
  {
    hide C.RecoveryOwners, C.Linked, C.Inv;
    var t, local := C.Step(c, C.Unlink(p)), C.LocalOf(c, p);
    assert LivesLeaving(c, p);
    if local.left > 0 {
      C.UnlinkLeavesPrefix(c, p);
      assert C.PrefixLeft(t, p);
      C.RecoveryOwnersAre(t.claims, local.chain[..local.left - 1]);
      assert |local.chain[..local.left]| in c.claims;
    } else {
      assert c.claims == map[];
    }
    forall q | LivesLeaving(t, q) && q != p ensures LivesLeaving(c, q) && C.LocalOf(t, q) == C.LocalOf(c, q) {}
  }

  lemma AbandonIsOrderly(c: C.State, p: nat)
    requires C.Inv(c) && Orderly(c) && C.Enabled(c, C.Abandon(p))
    ensures Orderly(C.Step(c, C.Abandon(p)))
  {
    hide C.RecoveryOwners, C.Linked, C.Inv, C.IsChain;
    AbandonBreaksNothing(c, p);
    var t := C.Step(c, C.Abandon(p));
    forall q | LivesLeaving(t, q)
      ensures LivesLeaving(c, q) && C.LocalOf(t, q) == C.LocalOf(c, q) && t.claims == c.claims
    {
      assert LivesLeaving(c, q);
      if C.LocalOf(c, q).Disposing? { C.AbandonedIsNotInPrefix(c, q, p); }
    }
  }

  lemma InstallIsOrderly(w: World, p: nat, claimId: nat)
    requires C.Inv(w.owners) && Orderly(w.owners) && CanHappen(w, Claiming(C.Install(p, claimId)))
    requires !Late(w, Claiming(C.Install(p, claimId)))
    ensures Orderly(C.Step(w.owners, C.Install(p, claimId)))
  {
    hide C.RecoveryOwners, C.Linked, C.Inv, C.IsChain;
    var c, t := w.owners, C.Step(w.owners, C.Install(p, claimId));
    InstallBreaks(c, p, claimId);
    forall q | LivesLeaving(t, q)
      ensures LivesLeaving(c, q) && C.LocalOf(t, q) == C.LocalOf(c, q) && t.claims == c.claims
    {
      assert LivesLeaving(c, q);
    }
  }

  /** The steps that leave the claims on file alone and nobody on his way out. */
  lemma QuietStepIsOrderly(c: C.State, l: C.Label)
    requires Orderly(c) && C.Enabled(c, l)
    requires l.ReadOwners? || l.Probe? || l.BeginAbandon? || l.Die?
    ensures Orderly(C.Step(c, l)) && C.Step(c, l).claims == c.claims
  {
    hide C.RecoveryOwners, C.Linked, C.IsChain;
    var t := C.Step(c, l);
    forall q | LivesLeaving(t, q) ensures LivesLeaving(c, q) && C.LocalOf(t, q) == C.LocalOf(c, q) {}
  }

  ghost predicate OrderlyWorld(w: World) {
    Orderly(w.owners) && (!HasWal(w.journal.dir) ==> w.owners.claims == map[])
  }

  lemma ClaimingIsOrderly(w: World, l: C.Label)
    requires Inv(w) && OrderlyWorld(w) && CanHappen(w, Claiming(l)) && !Late(w, Claiming(l))
    ensures OrderlyWorld(After(w, Claiming(l)))
  {
    hide C.RecoveryOwners, C.Inv, J.Inv, Orderly, HasWal, Stripped;
    match l
    case Install(p, claimId) => InstallIsOrderly(w, p, claimId);
    case BeginDispose(p) => DisposalIsOrderly(w.owners, p);
    case Unlink(p) => UnlinkIsOrderly(w.owners, p);
    case Abandon(p) => AbandonIsOrderly(w.owners, p);
    case _ => QuietStepIsOrderly(w.owners, l);
    if w.owners.claims == map[] { ClaimsAppear(w.owners, l); }
  }

  lemma EventIsOrderly(w: World, e: Event)
    requires Inv(w) && OrderlyWorld(w) && CanHappen(w, e) && !Late(w, e)
    ensures OrderlyWorld(After(w, e))
  {
    hide C.RecoveryOwners, C.Inv, J.Inv, HasWal, Stripped, J.Enabled, J.Next, C.Enabled, C.Step;
    match e
    case Claiming(l) => ClaimingIsOrderly(w, l);
    case Server(l) => if HasWal(w.journal.dir) { WalStays(w.journal, l); }
    case Write(_, l) => if HasWal(w.journal.dir) { WalStays(w.journal, l); }
    case Finish(p) => assert LivesLeaving(w.owners, p);
    case _ =>
  }

  /**
   However many processes recover and wherever they die: as long as no claim is installed late,
   every directory they leave is accepted, and asks for exactly one recovery, whose checks pass.
   */
  lemma {:induction false} OrderlyRunsAreRecoverable(worlds: seq<World>, events: seq<Event>, i: nat)
    requires IsRun(worlds, events) && i < |worlds|
    requires forall j | 0 <= j < i :: !Late(worlds[j], events[j])
    ensures Inv(worlds[i]) && OrderlyWorld(worlds[i]) && Mode(worlds[i]) != Rejected
  {
    hide Inv, CanHappen, After, J.Inv, OrderlyWorld, Late, Mode;
    EveryRunKeeps(worlds, events, i);
    if i == 0 {
      assert OrderlyWorld(worlds[0]) by { StartsOrderly(worlds[0]); }
    } else {
      OrderlyRunsAreRecoverable(worlds, events, i - 1);
      assert CanHappen(worlds[i - 1], events[i - 1]) && !Late(worlds[i - 1], events[i - 1]);
      EventIsOrderly(worlds[i - 1], events[i - 1]);
    }
    OrderlyIsAccepted(worlds[i]);
  }

  lemma OrderlyIsAccepted(w: World)
    requires Inv(w) && OrderlyWorld(w)
    ensures Mode(w) != Rejected
  {
    hide C.RecoveryOwners, C.Inv, J.Inv, HasWal, Mode;
    RejectedForClaims(w);
  }

  lemma StartsOrderly(w: World)
    requires Init(w)
    ensures OrderlyWorld(w)
  {
    hide C.RecoveryOwners, HasWal, C.PrefixLeft;
    C.DemoChains();
  }

  // ---------------------------------------------------------------------- a late claim

  const firstOfThree := C.Claim(0, 1, 3, None)
  const lateOfTwo := C.Claim(1, 1, 2, None)

  /** A journal in which only a command group was started, by an operator who then died. */
  ghost function Abandoned(j: J.State): J.State {
    j.(dir := J.AddGroup(j.dir, StartedRecord(j.binding)), stage := Begun, process := J.Dead)
  }

  ghost function Emptied(j: J.State): J.State {
    TakenOver(j).(dir := j.dir.(groups := []), stage := Finished([], None))
  }

  /** One event more. */
  lemma RunGrows(worlds: seq<World>, events: seq<Event>, e: Event)
    requires IsRun(worlds, events) && CanHappen(worlds[|events|], e)
    ensures IsRun(worlds + [After(worlds[|events|], e)], events + [e])
  {
    hide CanHappen, After, Init;
  }

  lemma OperatorDies(w: World) returns (worlds: seq<World>, events: seq<Event>)
    requires Init(w)
    ensures IsRun(worlds, events) && |worlds| == 3 && |events| == 2 && worlds[0] == w
    ensures worlds[2] == w.(journal := Abandoned(w.journal))
  {
    hide IsRun;
    RunStarts(w);
    RunGrows([w], [], Operator(J.Start));
    var started := After(w, Operator(J.Start));
    RunGrows([w] + [started], [] + [Operator(J.Start)], Operator(J.Crash));
    worlds, events := [w] + [started] + [After(started, Operator(J.Crash))], [] + [Operator(J.Start)] + [Operator(J.Crash)];
  }

  lemma RunStarts(w: World)
    requires Init(w)
    ensures IsRun([w], [])
  {
  }

  lemma AbandonedShows(j: J.State)
    requires J.Init(j)
    ensures var dead := Abandoned(j);
            && HasWal(dead.dir) && dead.dir.lock && Stripped(dead.dir)
            && J.Enabled(TakenOver(dead), FinalStep(dead.dir))
            && J.Next(TakenOver(dead), FinalStep(dead.dir)) == Emptied(dead) && !HasWal(Emptied(dead).dir)
  {
  }

  /** The claim files as processes 2 and 3 move them, step by step. */
  ghost function Moved(alive: set<nat>, step: nat): C.State {
    var two := C.Probed([]);
    match step
    case 0 => C.State(map[], alive, map[])
    case 1 => C.State(map[], alive, map[2 := C.Read([])])
    case 2 => C.State(map[], alive, map[2 := two])
    case 3 => C.State(map[], alive, map[2 := two, 3 := C.Read([])])
    case 4 => C.State(map[], alive, map[2 := two, 3 := C.Probed([])])
    case 5 => C.State(map[1 := firstOfThree], alive, map[2 := two, 3 := C.Claimed([], firstOfThree)])
    case 6 => C.State(map[1 := firstOfThree], alive, map[2 := two, 3 := C.Disposing([firstOfThree], 1)])
    case 7 => C.State(map[], alive, map[2 := two, 3 := C.Disposing([firstOfThree], 0)])
    case 8 => C.State(map[], alive, map[2 := two, 3 := C.Released])
    case _ => C.State(map[1 := lateOfTwo], alive, map[2 := C.Claimed([], lateOfTwo), 3 := C.Released])
  }

  ghost function Move(step: nat): C.Label {
    match step
    case 0 => C.ReadOwners(2)
    case 1 => C.Probe(2)
    case 2 => C.ReadOwners(3)
    case 3 => C.Probe(3)
    case 4 => C.Install(3, 0)
    case 5 => C.BeginDispose(3)
    case 6 => C.Unlink(3)
    case 7 => C.Unlink(3)
    case _ => C.Install(2, 1)
  }

  lemma Chains()
    ensures C.RecoveryOwners(map[]) == Some([])
    ensures C.RecoveryOwners(map[1 := firstOfThree]) == Some([firstOfThree])
    ensures C.RecoveryOwners(map[1 := lateOfTwo]) == Some([lateOfTwo])
  {
    hide C.RecoveryOwners;
    C.RecoveryOwnersAre(map[], []);
    C.RecoveryOwnersAre(map[1 := firstOfThree], [firstOfThree]);
    C.RecoveryOwnersAre(map[1 := lateOfTwo], [lateOfTwo]);
  }

  lemma EachMove(alive: set<nat>, step: nat)
    requires {2, 3} <= alive && step < 9
    ensures C.Enabled(Moved(alive, step), Move(step)) && C.Step(Moved(alive, step), Move(step)) == Moved(alive, step + 1)
    ensures step == 5 ==> C.Authorized(Moved(alive, step), 3)
  {
    hide C.RecoveryOwners;
    Chains();
    assert [] + [firstOfThree] == [firstOfThree];
  }

  lemma MoveRuns(worlds: seq<World>, events: seq<Event>, alive: set<nat>, step: nat) returns (longer: seq<World>, more: seq<Event>)
    requires IsRun(worlds, events) && {2, 3} <= alive && step < 9 && |worlds| == |events| + 1
    requires var w := worlds[|events|];
             && w.owners == Moved(alive, step) && w.journal.dir.lock
             && (step < 4 ==> !OperatorLives(w) && HasWal(w.journal.dir))
             && (step == 5 ==> 3 in w.started && Stripped(w.journal.dir))
    ensures IsRun(longer, more) && more == events + [Claiming(Move(step))]
    ensures longer == worlds + [worlds[|events|].(owners := Moved(alive, step + 1))]
  {
    hide IsRun, C.Enabled, C.Step, Moved, Stripped, HasWal;
    EachMove(alive, step);
    RunGrows(worlds, events, Claiming(Move(step)));
    longer, more := worlds + [After(worlds[|events|], Claiming(Move(step)))], events + [Claiming(Move(step))];
  }

  lemma TwoFindsNothing(w: World) returns (worlds: seq<World>, events: seq<Event>)
    requires Init(w) && {2, 3} <= w.owners.alive
    ensures IsRun(worlds, events) && |worlds| == 9 && |events| == 8 && worlds[0] == w
    ensures worlds[8] == World(TakenOver(Abandoned(w.journal)), Moved(w.owners.alive, 5), {3})
  {
    hide IsRun, Stripped, HasWal, C.RecoveryOwners;
    AbandonedShows(w.journal);
    var alive := w.owners.alive;
    worlds, events := OperatorDies(w);
    worlds, events := MoveRuns(worlds, events, alive, 0);
    worlds, events := MoveRuns(worlds, events, alive, 1);
    worlds, events := MoveRuns(worlds, events, alive, 2);
    worlds, events := MoveRuns(worlds, events, alive, 3);
    worlds, events := MoveRuns(worlds, events, alive, 4);
    EachMove(alive, 5);
    RunGrows(worlds, events, Begin(3));
    worlds, events := worlds + [After(worlds[7], Begin(3))], events + [Begin(3)];
  }

  lemma ThreeTakesAllAway(w: World) returns (worlds: seq<World>, events: seq<Event>)
    requires Init(w) && {2, 3} <= w.owners.alive
    ensures IsRun(worlds, events) && |worlds| == 13 && |events| == 12 && worlds[0] == w
    ensures worlds[12] == World(Emptied(Abandoned(w.journal)), Moved(w.owners.alive, 8), {3})
  {
    hide IsRun, Stripped, HasWal, C.RecoveryOwners, Abandoned, Emptied, FinalStep;
    AbandonedShows(w.journal);
    var alive, dead := w.owners.alive, Abandoned(w.journal);
    worlds, events := TwoFindsNothing(w);
    worlds, events := MoveRuns(worlds, events, alive, 5);
    worlds, events := MoveRuns(worlds, events, alive, 6);
    worlds, events := MoveRuns(worlds, events, alive, 7);
    assert TakenOver(TakenOver(dead)) == TakenOver(dead);
    RunGrows(worlds, events, Finish(3));
    worlds, events := worlds + [After(worlds[11], Finish(3))], events + [Finish(3)];
  }

  /**
   The one thing that makes a directory unrecoverable, from any start: process 2 finds no claim;
   process 3 claims, recovers and takes the journal away; the claim process 2 installs after
   that is left beside a lock without a journal, and every reader rejects it.
   */
  lemma LateClaimRejects(w: World) returns (worlds: seq<World>, events: seq<Event>)
    requires Init(w) && {2, 3} <= w.owners.alive
    ensures IsRun(worlds, events) && |worlds| == 14 && |events| == 13 && worlds[0] == w
    ensures worlds[13].journal.dir.lock && Mode(worlds[12]) != Rejected && Mode(worlds[13]) == Rejected
    ensures Late(worlds[12], events[12]) && Spoils(worlds[12], events[12])
  {
    hide IsRun, Stripped, C.RecoveryOwners, Abandoned, J.Init;
    AbandonedShows(w.journal);
    worlds, events := ThreeTakesAllAway(w);
    Chains();
    worlds, events := MoveRuns(worlds, events, w.owners.alive, 8);
  }
}
