/** What the invariant of the journal promises in every reachable state. */
module JournalTheorems {
  import opened Wrappers
  import opened SnapshotRules
  import opened JournalRecords
  import opened JournalLayout
  import opened JournalMachine
  import opened JournalSafety
  import opened ReceiptChain

  // ------------------------------------------------------------------ exactly once

  ghost function Receipts(b: Binding, history: seq<Done>): (receipts: seq<CompletionReceipt>)
    ensures |receipts| == |history|
    ensures forall k | 0 <= k < |history| :: receipts[k] == ReceiptAt(b, history, k)
  {
    seq(|history|, k requires 0 <= k < |history| => ReceiptAt(b, history, k))
  }

  lemma ReceiptSays(b: Binding, history: seq<Done>, k: nat)
    requires k < |history|
    ensures var receipt := ReceiptAt(b, history, k);
            receipt.binding == b && receipt.ordinal == k + 1 && receipt.previousReceipt == Tip(b, history[..k])
  {
  }

  lemma TipIsLink(b: Binding, history: seq<Done>, k: nat)
    requires k <= |history|
    ensures Tip(b, history[..k]) == Link(Receipts(b, history), k)
  {
    hide ReceiptDigest, ReceiptAt;
    if k > 0 {
      ReceiptOfPrefix(b, history, k, k - 1);
    }
  }

  /** The receipts of a history form the chain that its digest and length name. */
  lemma HistoryIsChain(b: Binding, history: seq<Done>)
    ensures IsChain(b, Receipts(b, history), ChainDigest(b, history), |history|)
  {
    hide ReceiptDigest, ReceiptAt, Link, Tip;
    var receipts := Receipts(b, history);
    assert history[..|history|] == history;
    forall k | 0 <= k < |history|
      ensures receipts[k].binding == b && receipts[k].ordinal == k + 1
      ensures receipts[k].previousReceipt == Link(receipts, k)
    {
      ReceiptSays(b, history, k);
      TipIsLink(b, history, k);
    }
    TipIsLink(b, history, |history|);
    TipOf(b, history);
  }

  lemma TipOf(b: Binding, history: seq<Done>)
    ensures Tip(b, history).Some? <==> history != []
  {
  }

  /** A receipt tells which plan it completed: its digest and its place, the state before and the predicate. */
  ghost predicate Completes(receipt: CompletionReceipt, plan: Plan) {
    && receipt.planDigest == Sha256(PlanBody(plan)) && receipt.binding == plan.binding
    && receipt.ordinal == plan.ordinal && receipt.operation == plan.operation
    && receipt.previousReceipt == plan.previousReceipt
    && receipt.beforeDigest == Sha256(SnapshotBody(plan.before))
    && receipt.expectedDigest == Sha256(PredicateBody(plan.expected))
  }

  /** And what came of it: the state it left, whether the audit moved, and on what evidence. */
  ghost predicate Certifies(receipt: CompletionReceipt, plan: Plan, after: Snapshot, evidence: Evidence) {
    && Completes(receipt, plan)
    && receipt.afterDigest == Sha256(SnapshotBody(after))
    && (receipt.auditChanged <==> after.audit != plan.before.audit)
    && receipt.outcome == evidence
  }

  /** A plan and what the history knows of it. */
  ghost predicate PlanOf(plan: Plan, done: Done) {
    plan.operation == done.draft.operation && plan.before == done.draft.before && plan.expected == done.draft.expected
  }

  /**
   `receipts` lists `effects` in order, each once, with ordinals 1 to n, and certifies of each the
   state that `history` says it left.
   */
  ghost predicate ListsOnce(receipts: seq<CompletionReceipt>, effects: seq<Plan>, history: seq<Done>) {
    && |receipts| == |effects| == |history|
    && (forall k | 0 <= k < |effects| ::
          && effects[k].ordinal == k + 1 && PlanOf(effects[k], history[k])
          && Certifies(receipts[k], effects[k], history[k].after, history[k].outcome))
    && (forall j, k | 0 <= j < k < |effects| :: effects[j] != effects[k])
  }

  /** Every write was accepted, and each began in the state the one before it left; the first and the last at the server's. */
  ghost predicate Follows(history: seq<Done>) {
    && (forall k | 0 <= k < |history| :: Accepted(history[k]))
    && forall k | 0 < k < |history| :: history[k].draft.before == history[k - 1].after
  }

  /** The receipts of `history` are installed and are the chain the last checkpoint names. */
  ghost predicate ReceiptsInstalled(b: Binding, dir: Directory, history: seq<Done>) {
    && IsChain(b, Receipts(b, history), ChainDigest(b, history), |history|)
    && Installed(dir.completions, Receipts(b, history))
    && (dir.groups != [] ==>
          && LastOf(dir.groups).count == |history|
          && LastOf(dir.groups).chainDigest == ChainDigest(b, history))
  }

  /** `plan` is that of the single unfinished operation, whose submission is on record. */
  ghost predicate InProgress(dir: Directory, plan: Plan) {
    && Accepting(dir) && HasOperation(dir)
    && |dir.operations| == LastOf(dir.groups).count + 1 == plan.ordinal
    && LastRecord(dir).plan == plan && LastRecord(dir).phase != Prepared
  }

  /**
   The installed receipts, walked back from the checkpointed digest and count, list the
   remote writes in order and once each, with the state each of them left; at most one write
   is newer, and it is the one of the single unfinished operation. With none newer the server
   is where the last receipt says.
   */
  ghost predicate ExactlyOnce(s: State) {
    var history, receipts := History(s.stage), Receipts(s.binding, History(s.stage));
    && ReceiptsInstalled(s.binding, s.dir, history)
    && |history| <= |s.effects| <= |history| + 1
    && ListsOnce(receipts, s.effects[..|history|], history) && Follows(history)
    && (|s.effects| > |history| ==> InProgress(s.dir, s.effects[|history|]))
    && (|s.effects| == |history| && history != [] ==>
          receipts[|history| - 1].afterDigest == Sha256(SnapshotBody(s.server)))
  }

  lemma PlansListOnce(b: Binding, history: seq<Done>)
    ensures ListsOnce(Receipts(b, history), Plans(b, history), history)
  {
    hide Tip;
    forall j, k | 0 <= j < k < |history| ensures Plans(b, history)[j] != Plans(b, history)[k] {
      assert Plans(b, history)[j].ordinal == j + 1 && Plans(b, history)[k].ordinal == k + 1;
    }
  }

  lemma TipNamesHistory(s: State)
    requires FilesInv(s)
    ensures ReceiptsInstalled(s.binding, s.dir, History(s.stage))
  {
    hide WellFormed, OperationFiles, GroupFiles, CommandFiles, IsChain, ChainDigest, ReceiptAt, TerminalHolds, IdsDistinct;
    HistoryIsChain(s.binding, History(s.stage));
    if s.dir.groups != [] {
      LastGroupIs(s.binding, s.stage);
    }
  }

  /** The unfinished operation of an open stage is there on file, submitted or not. */
  lemma UnfinishedIsOnFile(s: State)
    requires FilesInv(s) && s.stage.Open? && !s.stage.active.Idle? && !s.stage.active.Drafted?
    ensures InProgress(s.dir, ActivePlan(s))
  {
    hide ReceiptsKept, IdsDistinct, TerminalHolds, PlanAfter, ActiveFiles, DoneOperations, GroupTip;
    ActiveFilesSay(ActivePlan(s), s.stage.active);
    assert LastRecord(s.dir).phase != Prepared;
  }

  /** The effects of an invariant state, told by its stage. */
  lemma EffectsSay(s: State)
    requires RemoteInv(s)
    ensures s.effects == Plans(s.binding, History(s.stage))
            || (Unfinished(s.stage) && !s.stage.active.Drafted? && s.effects == Plans(s.binding, s.stage.history) + [ActivePlan(s)])
  {
    hide Plans, PlanAfter, ServerMatches, SnapshotsFollow, InflightMatches, UnsentMatches;
  }

  /** While nothing is newer than the history, the server is where the last operation left it. */
  lemma ServerIsWhereHistoryEnds(s: State)
    requires RemoteInv(s)
    ensures Follows(History(s.stage))
    ensures s.effects == Plans(s.binding, History(s.stage)) && History(s.stage) != [] ==>
              s.server == History(s.stage)[|History(s.stage)| - 1].after
  {
    hide Plans, PlanAfter, ExpectedAfterMatches, InflightMatches, UnsentMatches;
    var plans := Plans(s.binding, History(s.stage));
    assert Unfinished(s.stage) ==> plans != plans + [ActivePlan(s)];
  }

  lemma LastReceiptSays(b: Binding, history: seq<Done>, server: Snapshot)
    requires history != [] && server == history[|history| - 1].after
    ensures Receipts(b, history)[|history| - 1].afterDigest == Sha256(SnapshotBody(server))
  {
  }

  lemma SafeMeansExactlyOnce(s: State)
    requires Inv(s)
    ensures ExactlyOnce(s)
  {
    hide FilesInv, RemoteInv, OwnersMatch, Plans, PlanAfter, InProgress, ReceiptsInstalled, ListsOnce, Follows, Receipts;
    TipNamesHistory(s);
    EffectsSay(s);
    ServerIsWhereHistoryEnds(s);
    var history, plans := History(s.stage), Plans(s.binding, History(s.stage));
    PlansListOnce(s.binding, history);
    PlansCount(s.binding, history);
    if s.effects == plans {
      if history != [] { LastReceiptSays(s.binding, history, s.server); }
    } else {
      UnfinishedIsOnFile(s);
    }
    assert s.effects[..|plans|] == plans;
  }

  lemma PlansCount(b: Binding, history: seq<Done>)
    ensures |Plans(b, history)| == |history|
  {
  }

  /** Exactly once, over every run and every point of it. */
  lemma EveryRunIsExactlyOnce(states: seq<State>, labels: seq<Label>, i: nat)
    requires IsRun(states, labels) && i < |states|
    ensures ExactlyOnce(states[i])
  {
    hide *;
    EveryRunIsSafe(states, labels, i);
    SafeMeansExactlyOnce(states[i]);
  }

  /** Completed receipts are never behind the checkpoint and at most one ahead of it. */
  lemma CheckpointIsAtMostOneBehind(states: seq<State>, labels: seq<Label>, i: nat)
    requires IsRun(states, labels) && i < |states|
    requires states[i].dir.groups != [] && !CleanupTail(states[i].dir)
    ensures ReadableOperations(states[i].dir.operations)
    ensures 0 <= CompletedCount(states[i].dir.operations) - LastOf(states[i].dir.groups).count <= 1
  {
    EveryRunIsSafe(states, labels, i);
    ReachableMode(states[i]);
  }

  // --------------------------------------------------------------------- recovery modes

  lemma ReachableMode(s: State)
    requires Inv(s)
    ensures InspectMode(s.dir) != Rejected
    ensures s.dir.groups != [] ==> InspectMode(s.dir) == JournalMode && RecoveryAdmits(s.dir)
    ensures s.dir.groups == [] && HasWal(s.dir) ==> InspectMode(s.dir) == CommandReceiptMode
    ensures !HasWal(s.dir) ==> InspectMode(s.dir) == LockOnlyMode
  {
    hide ExpectedAfterMatches, ReceiptAt, DoneOperations, ClosedGroups, OpenGroups, PlanAfter, RecoveryAdmits, RemoteInv, IdsDistinct, TerminalHolds, ChainDigest;
    if s.dir.groups != [] {
      LayoutIsAdmitted(s.binding, s.stage, s.dir);
      AdmittedGroups(s.dir);
    }
  }

  lemma AdmittedGroups(dir: Directory)
    requires RecoveryAdmits(dir)
    ensures ValidGroupFiles(dir.groups)
  {
  }

  // ------------------------------------------------------------ what recovery's checks mean

  /** The receipt in a record certifies the record's plan, the state it recorded and its evidence. */
  ghost predicate Certified(record: OperationRecord) {
    && record.receipt.Some? && record.after.Some? && record.outcome.Some?
    && Certifies(record.receipt.value, record.plan, record.after.value, record.outcome.value)
  }

  /** `receipts` are those recorded in the first operation journals. */
  ghost predicate Records(operations: seq<seq<OperationRecord>>, receipts: seq<CompletionReceipt>) {
    && ReadableOperations(operations) && |receipts| <= |operations|
    && forall i | 0 <= i < |receipts| :: Current(operations[i]).receipt == Some(receipts[i]) && Certified(Current(operations[i]))
  }

  lemma AdmittedOperation(operations: seq<seq<OperationRecord>>, b: Binding, i: nat)
    requires OperationChainAdmits(operations, b, false) && ReadableOperations(operations) && i < |operations|
    ensures var record := Current(operations[i]);
            && ParsesOperation(record) && record.plan.binding == b && record.plan.ordinal == i + 1
            && LinksBack(operations, i, false)
  {
    hide ParsesOperation, LinksBack;
    var files := operations[i];
    assert OperationAdmits(operations, i, b, false) && ValidOperationFiles(files);
    assert FollowsOn(files, |files| - 1);
  }

  lemma AdmittedReceipt(operations: seq<seq<OperationRecord>>, b: Binding, i: nat)
    requires OperationChainAdmits(operations, b, false) && ReadableOperations(operations) && i < |operations|
    requires Current(operations[i]).receipt.Some?
    ensures var receipt := Current(operations[i]).receipt.value;
            && receipt.binding == b && receipt.ordinal == i + 1
            && Certified(Current(operations[i]))
            && (i == 0 ==> receipt.previousReceipt == None)
            && (i > 0 ==> Current(operations[i - 1]).receipt.Some?
                          && receipt.previousReceipt == Some(ReceiptDigest(Current(operations[i - 1]).receipt.value)))
  {
    hide OperationChainAdmits, ReceiptDigest;
    AdmittedOperation(operations, b, i);
  }

  ghost predicate Linked(b: Binding, receipts: seq<CompletionReceipt>) {
    forall k | 0 <= k < |receipts| ::
      receipts[k].binding == b && receipts[k].ordinal == k + 1 && receipts[k].previousReceipt == Link(receipts, k)
  }

  lemma LinkedSnoc(b: Binding, receipts: seq<CompletionReceipt>, last: CompletionReceipt)
    requires Linked(b, receipts) && last.binding == b && last.ordinal == |receipts| + 1
    requires last.previousReceipt == Link(receipts, |receipts|)
    ensures Linked(b, receipts + [last])
  {
    hide ReceiptDigest;
    var longer := receipts + [last];
    forall k | 0 <= k <= |receipts| ensures Link(longer, k) == Link(receipts, k) {}
  }

  lemma RecordsSnoc(operations: seq<seq<OperationRecord>>, receipts: seq<CompletionReceipt>, last: CompletionReceipt)
    requires Records(operations, receipts) && |receipts| < |operations|
    requires Current(operations[|receipts|]).receipt == Some(last) && Certified(Current(operations[|receipts|]))
    ensures Records(operations, receipts + [last])
  {
    hide ValidOperationFiles, Certified;
  }

  lemma {:induction false} CountedReceipts(operations: seq<seq<OperationRecord>>, b: Binding, n: nat)
    returns (receipts: seq<CompletionReceipt>)
    requires OperationChainAdmits(operations, b, false) && ReadableOperations(operations) && n <= CompletedCount(operations)
    ensures |receipts| == n && Records(operations, receipts) && Linked(b, receipts)
  {
    hide ReceiptDigest, CompletedCount, LinksBack, ValidOperationFiles, OperationChainAdmits, Certified, Linked;
    receipts := [];
    if n == 0 {
      assert Linked(b, []) by { NothingLinked(b); }
    } else {
      receipts := CountedReceipts(operations, b, n - 1);
      CountedHasReceipt(operations, b, n - 1);
      AdmittedReceipt(operations, b, n - 1);
      var last := Current(operations[n - 1]).receipt.value;
      LinkedSnoc(b, receipts, last);
      RecordsSnoc(operations, receipts, last);
      receipts := receipts + [last];
    }
  }

  lemma NothingLinked(b: Binding)
    ensures Linked(b, [])
  {
  }

  /**
   Whatever the directory, not only a reachable one: if recovery's checks pass and nothing is
   being removed, the counted receipts in the operation journals are the one chain that the
   checkpoint names.
   */
  lemma AdmittedIsTheChain(dir: Directory, tip: GroupRecord) returns (receipts: seq<CompletionReceipt>)
    requires dir.groups != [] && tip == LastOf(dir.groups) && RecoveryAdmits(dir) && !CleanupTail(dir)
    ensures Records(dir.operations, receipts) && IsChain(tip.binding, receipts, tip.chainDigest, tip.count)
  {
    AdmittedReads(dir, tip);
    hide *;
    receipts := CountedReceipts(dir.operations, tip.binding, tip.count);
    CountedIsChain(dir.operations, tip, receipts);
  }

  lemma CountedIsChain(operations: seq<seq<OperationRecord>>, tip: GroupRecord, receipts: seq<CompletionReceipt>)
    requires CheckpointNames(operations, tip) && |receipts| == tip.count && Records(operations, receipts)
    requires Linked(tip.binding, receipts)
    ensures IsChain(tip.binding, receipts, tip.chainDigest, tip.count)
  {
    hide ReadableOperations, ReceiptDigest;
  }

  /** The checkpoint names the receipt it counted last. */
  ghost predicate CheckpointNames(operations: seq<seq<OperationRecord>>, tip: GroupRecord) {
    && ReadableOperations(operations) && tip.count <= CompletedCount(operations)
    && (tip.count == 0 ==> tip.chainDigest == Sha256(EmptyChain(tip.binding)))
    && (tip.count > 0 ==>
          var last := Current(operations[tip.count - 1]);
          last.receipt.Some? && tip.chainDigest == ReceiptDigest(last.receipt.value))
  }

  lemma AdmittedReads(dir: Directory, tip: GroupRecord)
    requires dir.groups != [] && tip == LastOf(dir.groups) && RecoveryAdmits(dir) && !CleanupTail(dir)
    ensures OperationChainAdmits(dir.operations, tip.binding, false) && ReadableOperations(dir.operations)
    ensures tip.count <= CompletedCount(dir.operations) && CheckpointNames(dir.operations, tip)
  {
    hide ValidGroupFiles, ReceiptDigest, ValidOperationFiles, LinksBack, CompletedCount;
  }

  lemma CountedHasReceipt(operations: seq<seq<OperationRecord>>, b: Binding, i: nat)
    requires OperationChainAdmits(operations, b, false) && ReadableOperations(operations) && i < CompletedCount(operations)
    ensures i < |operations| && Current(operations[i]).receipt.Some?
  {
    hide LinksBack, CompletedCount;
    AdmittedOperation(operations, b, i);
  }

  // ---------------------------------------------------------- what cleanup is handed

  lemma TailOperationAgrees(s: State, i: nat)
    requires FilesInv(s) && s.stage.Tail? && i < |s.dir.operations|
    ensures ValidOperationFiles(s.dir.operations[i])
    ensures var record := Current(s.dir.operations[i]);
            var k := s.stage.operation + i;
            && k < |s.stage.history|
            && record.phase == ReceiptInstalled && record.plan.ordinal == k + 1 && record.plan.binding == s.binding
            && record.receipt == Some(ReceiptAt(s.binding, s.stage.history, k))
            && Completes(ReceiptAt(s.binding, s.stage.history, k), record.plan)
  {
    hide WellFormed, DoneFiles, ReceiptsKept, IdsDistinct, TerminalHolds, GroupFiles, OperationFiles, Tip, ValidOperationFiles;
    TailCount(s);
    DoneOperationAt(s.binding, s.stage, i);
  }

  lemma TailOperationsAgree(s: State)
    requires FilesInv(s) && s.stage.Tail?
    ensures OperationsAgree(s.dir.operations, s.binding, Receipts(s.binding, s.stage.history))
  {
    hide WellFormed, DoneFiles, ReceiptsKept, IdsDistinct, TerminalHolds, GroupFiles, ReceiptAt, ValidOperationFiles;
    assert |s.dir.operations| == |s.stage.history| - s.stage.operation && |s.stage.history| <= MAX_OPERATION_RECEIPTS by {
      TailCount(s);
    }
    hide FilesInv, OperationFiles;
    forall i | 0 <= i < |s.dir.operations| ensures ValidOperationFiles(s.dir.operations[i]) {
      TailOperationAgrees(s, i);
    }
    forall i | 0 <= i < |s.dir.operations|
      ensures var record := Current(s.dir.operations[i]);
              && record.phase == ReceiptInstalled && record.plan.ordinal == s.stage.operation + 1 + i
              && record.plan.binding == s.binding
              && record.receipt == Some(ReceiptAt(s.binding, s.stage.history, s.stage.operation + i))
              && Completes(ReceiptAt(s.binding, s.stage.history, s.stage.operation + i), record.plan)
    {
      TailOperationAgrees(s, i);
    }
  }

  lemma TailCount(s: State)
    requires FilesInv(s) && s.stage.Tail?
    ensures |s.dir.operations| == |s.stage.history| - s.stage.operation && |s.stage.history| <= MAX_OPERATION_RECEIPTS
  {
    hide ReceiptsKept, IdsDistinct, TerminalHolds, GroupFiles, DoneFiles;
  }

  /**
   While files are being removed the walk still returns every operation of the command,
   whichever prefix of the operation journals is gone: there is exactly one context, and it
   lists exactly the remote writes.
   */
  lemma CleanupSeesEveryOperation(s: State, receipts: seq<CompletionReceipt>)
    requires Inv(s) && s.dir.groups != [] && CleanupTail(s.dir)
    ensures var tip := LastOf(s.dir.groups);
            IsContext(s.dir, s.binding, tip.chainDigest, tip.count, receipts)
            <==> receipts == Receipts(s.binding, History(s.stage))
    ensures ListsOnce(Receipts(s.binding, History(s.stage)), s.effects, History(s.stage))
  {
    hide RemoteInv, ReceiptsInstalled, IsChain, OperationsAgree, ChainDigest, ReceiptAt, ListsOnce, InProgress;
    CleaningIsTail(s);
    SafeMeansExactlyOnce(s);
    assert ReceiptsInstalled(s.binding, s.dir, History(s.stage));
    TailOperationsAgree(s);
    NamesContext(s);
    var tip := LastOf(s.dir.groups);
    if IsContext(s.dir, s.binding, tip.chainDigest, tip.count, receipts) {
      ChainIsUnique(s.binding, receipts, Receipts(s.binding, History(s.stage)), tip.chainDigest, tip.count);
    }
    PlansListOnce(s.binding, History(s.stage));
    assert s.effects == Plans(s.binding, History(s.stage));
  }

  lemma CleaningIsTail(s: State)
    requires Inv(s) && s.dir.groups != [] && CleanupTail(s.dir)
    ensures FilesInv(s) && s.stage.Tail? && s.effects == Plans(s.binding, History(s.stage))
  {
    hide ReceiptsKept, IdsDistinct, TerminalHolds, GroupFiles, OperationFiles, Plans, ServerMatches, InflightMatches, UnsentMatches;
  }

  lemma NamesContext(s: State)
    requires ReceiptsInstalled(s.binding, s.dir, History(s.stage)) && s.dir.groups != []
    requires FilesInv(s) && s.stage.Tail?
    requires OperationsAgree(s.dir.operations, s.binding, Receipts(s.binding, History(s.stage)))
    ensures var tip := LastOf(s.dir.groups);
            IsContext(s.dir, s.binding, tip.chainDigest, tip.count, Receipts(s.binding, History(s.stage)))
  {
    hide IsChain, OperationsAgree, ChainDigest, ReceiptAt;
    TailCount(s);
  }

  // -------------------------------------------------------------- the pinned receipt

  /** The command receipt that has been prepared, or installed and finished with. */
  ghost function Pinned(b: Binding, stage: Stage): Option<Digest> {
    match stage
    case Closed(_, history, _, receipt) =>
      if receipt.None? then None else Some(ExpectedReceipt(PreparedCommand(b, history, receipt.value)))
    case Tail(_, history, _, content, _, _, _, _) => Some(ExpectedReceipt(PreparedCommand(b, history, content)))
    case Finished(_, result) => result
    case _ => None
  }

  /** What the directory shows of the pinned receipt. */
  lemma PinnedShows(s: State)
    requires Inv(s)
    ensures s.dir.commands != [] ==> Pinned(s.binding, s.stage) == Some(ExpectedReceipt(s.dir.commands[0]))
    ensures s.dir.commands == [] && Pinned(s.binding, s.stage).Some? ==>
              !HasWal(s.dir) && Pinned(s.binding, s.stage).value in s.dir.receipts
    ensures s.dir.lock && CommandInstalledIn(s.dir) ==> ExpectedReceipt(s.dir.commands[0]) in s.dir.receipts
  {
    hide RemoteInv, IdsDistinct, TerminalHolds, OpenGroups, DoneOperations, ClosedGroups, ChainDigest, ReceiptAt;
    var prepared := if s.stage.Tail? then PreparedCommand(s.binding, s.stage.history, s.stage.content) else PreparedCommand(s.binding, [], 0);
    assert ExpectedReceipt(InstalledCommand(prepared)) == ExpectedReceipt(prepared);
  }

  ghost predicate ClosingLabel(l: Label) {
    l.Start? || l.Bind? || l.PrepareCommand? || l.DropTerminalGroup? || l.FinishCommand? || l.DropTerminalCommand?
    || l.CloseCommand?
  }

  lemma StepKeepsReceipt(s: State, l: Label)
    requires Inv(s) && Enabled(s, l) && Pinned(s.binding, s.stage).Some?
    ensures Next(s, l).binding == s.binding && Pinned(s.binding, Next(s, l).stage) == Pinned(s.binding, s.stage)
  {
    hide Inv, ExpectedReceipt, PreparedCommand, ExpectedAfterMatches, ActivePhase, Accepting, Advance, AdvanceGroup, DropFirstFile, CleaningUp;
    if ClosingLabel(l) {
      ClosingStepKeepsReceipt(s, l);
    }
  }

  lemma ClosingStepKeepsReceipt(s: State, l: Label)
    requires Inv(s) && Enabled(s, l) && Pinned(s.binding, s.stage).Some? && ClosingLabel(l)
    ensures Next(s, l).binding == s.binding && Pinned(s.binding, Next(s, l).stage) == Pinned(s.binding, s.stage)
  {
    hide RemoteInv, IdsDistinct, TerminalHolds, ExpectedReceipt, ExpectedAfterMatches, AdvanceGroup, ChainDigest, OperationFiles, GroupFiles, ReceiptsKept, ValidCommandFiles, OwnersMatch;
    if s.dir.groups != [] {
      LastGroupIs(s.binding, s.stage);
    }
    PinnedShows(s);
  }

  /** Once a command receipt has been prepared, that receipt is the one every later state holds or has installed. */
  lemma {:induction false} PreparedReceiptSurvives(states: seq<State>, labels: seq<Label>, i: nat, j: nat)
    requires IsRun(states, labels) && i <= j < |states| && states[i].dir.commands != []
    ensures var receipt := ExpectedReceipt(states[i].dir.commands[0]);
            && (states[j].dir.commands != [] ==> ExpectedReceipt(states[j].dir.commands[0]) == receipt)
            && (states[j].dir.commands == [] ==> !HasWal(states[j].dir) && receipt in states[j].dir.receipts)
  {
    hide Inv, Enabled, Next, Init;
    EveryRunIsSafe(states, labels, i);
    PinnedShows(states[i]);
    PinnedStays(states, labels, i, j);
    EveryRunIsSafe(states, labels, j);
    PinnedShows(states[j]);
  }

  lemma {:induction false} PinnedStays(states: seq<State>, labels: seq<Label>, i: nat, j: nat)
    requires IsRun(states, labels) && i <= j < |states| && Pinned(states[i].binding, states[i].stage).Some?
    ensures states[j].binding == states[i].binding
    ensures Pinned(states[j].binding, states[j].stage) == Pinned(states[i].binding, states[i].stage)
    decreases j
  {
    hide Inv, Enabled, Next, Init, Pinned;
    if i < j {
      PinnedStays(states, labels, i, j - 1);
      EveryRunIsSafe(states, labels, j - 1);
      assert Enabled(states[j - 1], labels[j - 1]);
      StepKeepsReceipt(states[j - 1], labels[j - 1]);
    }
  }

  /** One process recovering at a time: in every reachable state exactly one recovery mode applies, and its checks pass. */
  lemma EveryCrashPointIsRecoverable(states: seq<State>, labels: seq<Label>, i: nat)
    requires IsRun(states, labels) && i < |states|
    ensures var dir := states[i].dir;
            match InspectMode(dir)
            case JournalMode => dir.groups != [] && RecoveryAdmits(dir)
            case CommandReceiptMode => dir.groups == [] && ExpectedReceipt(dir.commands[0]) in dir.receipts
            case LockOnlyMode => !HasWal(dir) && dir.claims == 0
            case Rejected => false
  {
    hide Inv, Enabled, Next, Init;
    EveryRunIsSafe(states, labels, i);
    ReachableMode(states[i]);
  }

  /**
   The chain builder forgets the prepared receipt once it is through, and would prepare a second
   one. The record that leaves behind has no command group beside it, and no recovery accepts it.
   */
  lemma SecondReceiptIsRejected(s: State, record: CommandRecord)
    requires Inv(s) && s.stage.Finished? && record.phase == CommandPrepared
    ensures InspectMode(s.dir.(commands := s.dir.commands + [record])) == Rejected
  {
    hide RemoteInv, ReceiptsKept, IdsDistinct, TerminalHolds;
  }
}
