/** Every step of the journal keeps the invariant, so every run does. */
module JournalSafety {
  import opened Wrappers
  import opened SnapshotRules
  import opened JournalRecords
  import opened JournalLayout
  import opened JournalMachine

  // ------------------------------------------- what a guard on the files says of the stage

  lemma OpenStage(s: State)
    requires FilesInv(s) && Accepting(s.dir)
    ensures s.stage.Open?
    ensures LastOf(s.dir.groups) == GroupTip(s.binding, s.stage.plan, s.stage.history)
  {
    hide ExpectedAfterMatches, ReceiptsKept, IdsDistinct, OperationFiles;
    LastGroupIs(s.binding, s.stage);
  }

  lemma SettledStage(s: State)
    requires FilesInv(s) && AtRest(s.dir)
    ensures s.stage.Open? && s.stage.active.Idle?
    ensures LastOf(s.dir.groups) == GroupTip(s.binding, s.stage.plan, s.stage.history)
  {
    hide ExpectedAfterMatches, ReceiptsKept, IdsDistinct, GroupTip, ActiveFiles, DoneFiles;
    OpenStage(s);
  }

  predicate PhaseOf(active: Active, phase: Phase) {
    match phase
    case Prepared => active.Drafted?
    case SubmissionUncertain => active.Marked? || active.Clearing?
    case ManualAmbiguity => active.Stuck?
    case Reconciled => active.Settled?
    case ReceiptInstalled => active.Receipted?
  }

  lemma ActiveFilesSay(plan: Plan, active: Active)
    requires !active.Idle?
    ensures var files := ActiveFiles(plan, active);
            && files != []
            && PhaseOf(active, Current(files).phase)
            && Current(files).plan == plan && Current(files).journalId == DraftOf(active).journalId
            && files[0].journalId == DraftOf(active).journalId
            && (active.Marked? ==> |files| == 2) && (active.Clearing? || active.Drafted? ==> |files| == 1)
            && (active.Settled? || active.Receipted? ==>
                  Current(files).receipt == Some(CompletionFor(plan, active.done.after, active.done.outcome)))
  {
  }

  lemma ActiveStage(s: State, phase: Phase)
    requires FilesInv(s) && ActivePhase(s.dir, phase)
    ensures s.stage.Open? && PhaseOf(s.stage.active, phase)
    ensures LastFiles(s.dir) == ActiveFiles(ActivePlan(s), s.stage.active)
    ensures LastRecord(s.dir).plan == ActivePlan(s)
    ensures LastRecord(s.dir).journalId == DraftOf(s.stage.active).journalId
    ensures s.stage.active.Marked? ==> |LastFiles(s.dir)| == 2
    ensures s.stage.active.Clearing? || s.stage.active.Drafted? ==> |LastFiles(s.dir)| == 1
    ensures s.stage.active.Settled? || s.stage.active.Receipted? ==>
              LastRecord(s.dir).receipt == Some(CompletionFor(ActivePlan(s), s.stage.active.done.after, s.stage.active.done.outcome))
    ensures s.dir.operations == DoneOperations(s.binding, s.stage.history) + [LastFiles(s.dir)]
  {
    hide ExpectedAfterMatches, ReceiptsKept, IdsDistinct, GroupTip, ActiveFiles, DoneFiles, PlanAfter, CompletionFor;
    OpenStage(s);
    ActiveFilesSay(ActivePlan(s), s.stage.active);
  }

  /** A step of a process that touches neither lock nor claims keeps the owners matched. */
  lemma OwnersKept(s: State, t: State)
    requires OwnersMatch(s) && Acting(s)
    requires t.dir.lock == s.dir.lock && t.dir.claims == s.dir.claims
    requires t.process.Live? && t.process.recovering == s.process.recovering
    requires HasWal(s.dir) ==> HasWal(t.dir)
    ensures OwnersMatch(t)
  {
  }

  // ------------------------------------------------------------- the unfinished operation

  /** Adding a file to the unfinished operation changes the layout there alone. */
  lemma PhaseRelays(s: State, t: State, active: Active, record: OperationRecord)
    requires FilesInv(s) && s.stage.Open? && !s.stage.active.Idle? && !active.Idle?
    requires DraftOf(active) == DraftOf(s.stage.active)
    requires LastFiles'(s) + [record] == ActiveFiles(ActivePlan(s), active)
    requires t.binding == s.binding && t.stage == s.stage.(active := active)
    requires t.dir == s.dir.(operations := DoneOperations(s.binding, s.stage.history) + [LastFiles'(s) + [record]])
    requires active.Receipted? ==> CompletionFor(ActivePlan(s), active.done.after, active.done.outcome) in s.dir.completions
    ensures FilesInv(t)
  {
    hide ExpectedAfterMatches, GroupTip, ActiveFiles, DoneFiles, PlanAfter, CompletionFor, ReceiptAt;
    assert ActivePlan(t) == ActivePlan(s);
    assert ReceiptsKept(t);
  }

  function LastFiles'(s: State): seq<OperationRecord>
    requires s.stage.Open? && !s.stage.active.Idle?
  {
    ActiveFiles(ActivePlan(s), s.stage.active)
  }

  /** What `Advance` installs after the current record of the unfinished operation. */
  lemma AdvanceAdds(s: State, phase: Phase, next: Phase, ambiguity: Option<nat>,
                    after: Option<Snapshot>, outcome: Option<Evidence>)
    requires FilesInv(s) && ActivePhase(s.dir, phase) && PhaseOrdinal(next) == PhaseOrdinal(phase) + 1
    ensures var record := NextPhase(LastRecord(s.dir), next, ambiguity, after, outcome);
            && record.Some?
            && s.stage.Open? && !s.stage.active.Idle?
            && Advance(s.dir, next, ambiguity, after, outcome)
            == s.dir.(operations := DoneOperations(s.binding, s.stage.history) + [LastFiles'(s) + [record.value]])
  {
    hide ExpectedAfterMatches, ReceiptsKept, GroupTip, ActiveFiles, DoneFiles, PlanAfter, LaidOut, IdsDistinct;
    ActiveStage(s, phase);
  }

  lemma MarkFiles(s: State)
    requires FilesInv(s) && CanMark(s)
    ensures FilesInv(DoMark(s)) && s.stage.Open? && s.stage.active.Drafted?
  {
    hide ExpectedAfterMatches, GroupTip, DoneFiles, PlanAfter, LaidOut, IdsDistinct, DoneOperations;
    ActiveStage(s, Prepared);
    AdvanceAdds(s, Prepared, SubmissionUncertain, None, None, None);
    PhaseRelays(s, DoMark(s), Marked(s.stage.active.draft), MarkedRecord(LastRecord(s.dir)));
  }

  lemma MarkKeeps(s: State)
    requires Inv(s) && CanMark(s)
    ensures Inv(DoMark(s))
  {
    hide ExpectedAfterMatches, FilesInv, Plans, PlanAfter, Advance;
    MarkFiles(s);
    WalKept(s, DoMark(s));
    OwnersKept(s, DoMark(s));
  }

  /** Adding to the files of an operation leaves the command group where it was. */
  lemma WalKept(s: State, t: State)
    requires Accepting(s.dir)
    requires exists phase, ambiguity, after, outcome :: t.dir == Advance(s.dir, phase, ambiguity, after, outcome)
    ensures HasWal(t.dir) && t.dir.lock == s.dir.lock && t.dir.claims == s.dir.claims
  {
    hide ExpectedAfterMatches;
  }

  lemma AmbiguityFiles(s: State, identity: nat)
    requires FilesInv(s) && CanDeclareAmbiguous(s)
    ensures FilesInv(DoDeclareAmbiguous(s, identity)) && s.stage.Open? && s.stage.active.Marked?
  {
    hide ExpectedAfterMatches, GroupTip, DoneFiles, PlanAfter, LaidOut, IdsDistinct, DoneOperations;
    ActiveStage(s, SubmissionUncertain);
    AdvanceAdds(s, SubmissionUncertain, ManualAmbiguity, Some(identity), None, None);
    PhaseRelays(s, DoDeclareAmbiguous(s, identity), Stuck(s.stage.active.draft, identity), StuckRecord(LastRecord(s.dir), identity));
  }

  lemma AmbiguityKeeps(s: State, identity: nat)
    requires Inv(s) && CanDeclareAmbiguous(s)
    ensures Inv(DoDeclareAmbiguous(s, identity))
  {
    hide ExpectedAfterMatches, FilesInv, Plans, PlanAfter, Advance;
    AmbiguityFiles(s, identity);
    WalKept(s, DoDeclareAmbiguous(s, identity));
    OwnersKept(s, DoDeclareAmbiguous(s, identity));
  }

  /** The server shows a state the predicate accepts, so it has executed the operation. */
  lemma AcceptedMeansExecuted(s: State)
    requires RemoteInv(s) && InDoubt(s.stage)
    requires ExpectedAfterMatches(s.stage.active.draft.before, s.server, s.stage.active.draft.expected)
    ensures Executed(s) && s.inflight == None
  {
    hide ExpectedAfterMatches, Plans, PlanAfter;
  }

  /** The server still shows the state before, so it has not. */
  lemma UnchangedMeansNotExecuted(s: State)
    requires RemoteInv(s) && InDoubt(s.stage) && s.server == s.stage.active.draft.before
    ensures s.effects == Plans(s.binding, s.stage.history)
  {
    hide ExpectedAfterMatches, Plans, PlanAfter;
  }

  /** A settling operation is marked: one whose removal has begun shows its state before. */
  lemma SettlingIsMarked(s: State)
    requires Inv(s) && CanSettle(s)
    ensures s.stage.Open? && s.stage.active.Marked?
    ensures ExpectedAfterMatches(s.stage.active.draft.before, s.server, s.stage.active.draft.expected)
  {
    hide ExpectedAfterMatches, Plans, LaidOut, IdsDistinct, ReceiptsKept, DoneOperations, ActiveFiles;
    ActiveStage(s, SubmissionUncertain);
  }

  lemma SettleFiles(s: State, outcome: Evidence)
    requires FilesInv(s) && CanSettle(s) && s.stage.Open? && s.stage.active.Marked?
    ensures FilesInv(DoSettle(s, outcome))
  {
    hide ExpectedAfterMatches, GroupTip, DoneFiles, PlanAfter, LaidOut, IdsDistinct, DoneOperations, CompletionFor;
    ActiveStage(s, SubmissionUncertain);
    AdvanceAdds(s, SubmissionUncertain, Reconciled, None, Some(s.server), Some(outcome));
    PhaseRelays(s, DoSettle(s, outcome), Active.Settled(Done(s.stage.active.draft, s.server, outcome)),
                SettledRecord(LastRecord(s.dir), s.server, outcome));
  }

  lemma SettleKeeps(s: State, outcome: Evidence)
    requires Inv(s) && CanSettle(s)
    ensures Inv(DoSettle(s, outcome))
  {
    hide ExpectedAfterMatches, FilesInv, Plans, PlanAfter, Advance;
    SettlingIsMarked(s);
    SettleFiles(s, outcome);
    AcceptedMeansExecuted(s);
    WalKept(s, DoSettle(s, outcome));
    OwnersKept(s, DoSettle(s, outcome));
  }

  lemma InstallCompletionKeeps(s: State)
    requires Inv(s) && CanInstallCompletion(s)
    ensures Inv(DoInstallCompletion(s))
  {
    hide ExpectedAfterMatches, Plans, PlanAfter, LaidOut, IdsDistinct, TerminalHolds, ReceiptAt, CompletionFor;
    var t := DoInstallCompletion(s);
    assert LaidOut(t.binding, t.stage, t.dir) by { SameFilesStay(s, t); }
    OwnersKept(s, t);
  }

  /** The layout does not look at receipts, lock or claims. */
  lemma SameFilesStay(s: State, t: State)
    requires LaidOut(s.binding, s.stage, s.dir) && t.binding == s.binding && t.stage == s.stage
    requires t.dir.groups == s.dir.groups && t.dir.operations == s.dir.operations && t.dir.commands == s.dir.commands
    ensures LaidOut(t.binding, t.stage, t.dir)
  {
    hide ExpectedAfterMatches, WellFormed, GroupFiles, OperationFiles, CommandFiles;
  }

  lemma ReceiptPhaseFiles(s: State)
    requires FilesInv(s) && CanInstallReceiptPhase(s)
    ensures FilesInv(DoInstallReceiptPhase(s)) && s.stage.Open? && s.stage.active.Settled?
  {
    hide ExpectedAfterMatches, GroupTip, DoneFiles, PlanAfter, LaidOut, IdsDistinct, DoneOperations, CompletionFor, ReceiptAt;
    ActiveStage(s, Reconciled);
    var done := s.stage.active.done;
    assert LastRecord(s.dir) == SettledFiles(ActivePlan(s), done.draft.journalId, done.after, done.outcome)[2];
    AdvanceAdds(s, Reconciled, ReceiptInstalled, None, Some(done.after), Some(done.outcome));
    PhaseRelays(s, DoInstallReceiptPhase(s), Receipted(done), ReceiptedRecord(LastRecord(s.dir)));
  }

  lemma ReceiptPhaseKeeps(s: State)
    requires Inv(s) && CanInstallReceiptPhase(s)
    ensures Inv(DoInstallReceiptPhase(s))
  {
    hide ExpectedAfterMatches, FilesInv, Plans, PlanAfter, Advance;
    ReceiptPhaseFiles(s);
    WalKept(s, DoInstallReceiptPhase(s));
    OwnersKept(s, DoInstallReceiptPhase(s));
  }

  lemma DoneFilesNamed(b: Binding, history: seq<Done>, k: nat)
    requires k < |history|
    ensures DoneFiles(b, history, k)[0].journalId == history[k].draft.journalId
  {
  }

  lemma FreshId(s: State, draft: Draft)
    requires FilesInv(s) && s.stage.Open? && s.stage.active.Idle? && CanPrepare(s, draft)
    ensures forall i | 0 <= i < |s.stage.history| :: s.stage.history[i].draft.journalId != draft.journalId
  {
    hide ExpectedAfterMatches, GroupTip, DoneFiles, PlanAfter, ReceiptsKept, IdsDistinct;
    forall i | 0 <= i < |s.stage.history| ensures s.stage.history[i].draft.journalId != draft.journalId {
      DoneFilesNamed(s.binding, s.stage.history, i);
      assert s.dir.operations[i] == DoneFiles(s.binding, s.stage.history, i);
    }
  }

  lemma PrepareFiles(s: State, draft: Draft)
    requires FilesInv(s) && CanPrepare(s, draft)
    ensures FilesInv(DoPrepare(s, draft)) && s.stage.Open? && s.stage.active.Idle?
  {
    hide ExpectedAfterMatches, GroupTip, DoneFiles, ReceiptAt;
    SettledStage(s);
    FreshId(s, draft);
    assert PreparedFor(s, draft) == PreparedRecord(PlanAfter(s.binding, s.stage.history, draft), draft.journalId);
  }

  lemma PrepareKeeps(s: State, draft: Draft)
    requires Inv(s) && CanPrepare(s, draft)
    ensures Inv(DoPrepare(s, draft))
  {
    hide ExpectedAfterMatches, FilesInv, Plans, PlanAfter, PreparedFor;
    PrepareFiles(s, draft);
    OwnersKept(s, DoPrepare(s, draft));
  }

  lemma ClearStage(s: State)
    requires FilesInv(s) && CanClear(s)
    ensures s.stage.Open? && ClearedFrom(s.stage.active)
    ensures s.server == s.stage.active.draft.before
    ensures LastRecord(s.dir).journalId == s.stage.active.draft.journalId
    ensures s.dir.operations == DoneOperations(s.binding, s.stage.history) + [LastFiles'(s)]
  {
    hide FilesInv, ActivePhase, ActiveFiles, DoneOperations, PlanAfter, DoneFiles;
    if ActivePhase(s.dir, Prepared) {
      ActiveStage(s, Prepared);
    } else {
      ActiveStage(s, SubmissionUncertain);
    }
  }

  predicate ClearedFrom(active: Active) {
    active.Drafted? || active.Marked? || active.Clearing?
  }

  /** Unlinking the oldest file of the unfinished operation leaves its second file, or nothing. */
  lemma ClearLayout(b: Binding, plan: Plan, active: Active, done: seq<seq<OperationRecord>>)
    requires ClearedFrom(active)
    ensures DropFirstFile(done + [ActiveFiles(plan, active)], |done|)
         == done + if active.Marked? then [ActiveFiles(plan, Clearing(active.draft))] else []
  {
    var operations := done + [ActiveFiles(plan, active)];
    assert operations[..|done|] == done && operations[|done| + 1..] == [];
  }

  lemma ClearFiles(s: State)
    requires FilesInv(s) && CanClear(s)
    ensures FilesInv(DoClear(s)) && s.stage.Open? && ClearedFrom(s.stage.active)
    ensures s.server == s.stage.active.draft.before
    ensures LastRecord(s.dir).journalId == s.stage.active.draft.journalId
  {
    hide CanClear, GroupTip, DoneFiles, DoneOperations, PlanAfter, ReceiptAt, CompletionFor, OpenGroups, ActiveFiles, DropFirstFile;
    ClearStage(s);
    ClearLayout(s.binding, ActivePlan(s), s.stage.active, DoneOperations(s.binding, s.stage.history));
  }

  lemma ClearKeeps(s: State)
    requires Inv(s) && CanClear(s)
    ensures Inv(DoClear(s))
  {
    hide ExpectedAfterMatches, FilesInv, Plans, PlanAfter, DropFirstFile;
    ClearFiles(s);
    if s.stage.active.Marked? {
      UnchangedMeansNotExecuted(s);
    }
    OwnersKept(s, DoClear(s));
  }

  /** The receipt a checkpoint counts is the next one of the longer history. */
  lemma CheckpointReceipt(s: State)
    requires FilesInv(s) && CanCheckpoint(s)
    ensures s.stage.Open? && s.stage.active.Receipted?
    ensures var longer := s.stage.history + [s.stage.active.done];
            ReceiptDigest(LastRecord(s.dir).receipt.value) == ChainDigest(s.binding, longer)
    ensures s.dir.operations == DoneOperations(s.binding, s.stage.history) + [LastFiles'(s)]
  {
    hide ExpectedAfterMatches, FilesInv, DoneFiles, CompletionFor, PlanAfter, GroupTip, ActiveFiles, DoneOperations;
    ActiveStage(s, ReceiptInstalled);
    var history, done := s.stage.history, s.stage.active.done;
    var longer := history + [done];
    assert longer[..|history|] == history;
    assert LastRecord(s.dir).receipt.value == ReceiptAt(s.binding, longer, |history|);
  }

  /** The group record after `GroupTip` of a history is `GroupTip` of the longer one. */
  lemma NextGroupTip(b: Binding, plan: CommandPlan, history: seq<Done>, done: Done)
    ensures var longer := history + [done];
            NextGroupPhase(GroupTip(b, plan, history), OperationCheckpoint, None, ChainDigest(b, longer), |longer|, None)
            == Some(GroupTip(b, plan, longer))
  {
    hide ChainDigest;
    var longer := history + [done];
    assert longer[..|longer| - 1] == history;
  }

  lemma CheckpointGroup(s: State)
    requires FilesInv(s) && CanCheckpoint(s)
    ensures s.stage.Open? && s.stage.active.Receipted?
    ensures var longer := s.stage.history + [s.stage.active.done];
            DoCheckpoint(s).dir == s.dir.(groups := s.dir.groups + [GroupTip(s.binding, s.stage.plan, longer)])
    ensures s.dir.operations == DoneOperations(s.binding, s.stage.history) + [LastFiles'(s)]
  {
    hide ExpectedAfterMatches, FilesInv, DoneFiles, CompletionFor, PlanAfter, GroupTip, ActiveFiles, DoneOperations, ChainDigest, NextGroupPhase;
    CheckpointReceipt(s);
    OpenStage(s);
    NextGroupTip(s.binding, s.stage.plan, s.stage.history, s.stage.active.done);
  }

  /** A checkpoint turns the layout of an active, receipted operation into that of a longer history. */
  lemma CheckpointLayout(b: Binding, plan: CommandPlan, history: seq<Done>, done: Done)
    requires |history| < MAX_OPERATION_RECEIPTS
    ensures var was, now := Open(plan, history, Receipted(done)), Open(plan, history + [done], Idle);
            && WellFormed(was) && WellFormed(now)
            && GroupFiles(b, now) == GroupFiles(b, was) + [GroupTip(b, plan, history + [done])]
            && OperationFiles(b, now) == OperationFiles(b, was)
  {
    hide GroupTip, ActiveFiles, PlanAfter, OpenGroups, DoneOperations;
    DoneOperationsSnoc(b, history, done);
    OpenGroupsSnoc(b, plan, history, done);
  }

  lemma CheckpointReceipts(s: State)
    requires FilesInv(s) && CanCheckpoint(s) && s.stage.Open? && s.stage.active.Receipted?
    ensures ReceiptsKept(DoCheckpoint(s)) && IdsDistinct(DoCheckpoint(s).stage)
  {
    hide LaidOut, GroupTip, ActiveFiles, PlanAfter, CompletionFor, ActivePhase, NextGroupPhase, ExpectedReceipt, PreparedCommand;
    var history, done := s.stage.history, s.stage.active.done;
    var longer := history + [done];
    assert longer[..|history|] == history;
    forall k | 0 <= k < |history| ensures ReceiptAt(s.binding, longer, k) == ReceiptAt(s.binding, history, k) {
      ReceiptOfPrefix(s.binding, longer, |history|, k);
    }
  }

  lemma CheckpointFiles(s: State)
    requires FilesInv(s) && CanCheckpoint(s)
    ensures FilesInv(DoCheckpoint(s)) && s.stage.Open? && s.stage.active.Receipted?
  {
    hide ReceiptsKept, IdsDistinct, GroupTip, GroupFiles, OperationFiles, CanCheckpoint, NextGroupPhase;
    CheckpointGroup(s);
    CheckpointLayout(s.binding, s.stage.plan, s.stage.history, s.stage.active.done);
    CheckpointReceipts(s);
  }

  lemma CheckpointKeeps(s: State)
    requires Inv(s) && CanCheckpoint(s)
    ensures Inv(DoCheckpoint(s))
  {
    hide ExpectedAfterMatches, FilesInv, Plans, PlanAfter, NextGroupPhase;
    CheckpointFiles(s);
    PlansSnoc(s.binding, s.stage.history, s.stage.active.done);
    OwnersKept(s, DoCheckpoint(s));
  }

  // ----------------------------------------------------------------------- remote

  lemma ExecuteKeeps(s: State, after: Snapshot)
    requires Inv(s) && CanExecute(s, after)
    ensures Inv(DoExecute(s, after))
  {
    hide ExpectedAfterMatches, Plans, LaidOut, IdsDistinct, TerminalHolds, ReceiptAt, CompletionFor;
    ActiveStage(s, LastRecord(s.dir).phase);
  }

  lemma SubmitKeeps(s: State)
    requires Inv(s) && CanSubmit(s)
    ensures Inv(DoSubmit(s))
  {
    hide ExpectedAfterMatches, Plans, PlanAfter, LaidOut, IdsDistinct, TerminalHolds, ReceiptAt, CompletionFor;
    ActiveStage(s, SubmissionUncertain);
  }

  lemma ProcessStepsKeep(s: State, l: Label)
    requires Inv(s) && (l.Lose? || l.Crash? || l.Recover?) && Enabled(s, l)
    ensures Inv(Next(s, l))
  {
    hide ExpectedAfterMatches, Plans, PlanAfter, LaidOut, IdsDistinct, TerminalHolds, ReceiptAt, CompletionFor;
  }

  // ---------------------------------------------------------------------- command

  lemma StartKeeps(s: State)
    requires Inv(s) && CanStart(s)
    ensures Inv(DoStart(s))
  {
    hide ExpectedAfterMatches, Plans, PlanAfter, ReceiptAt;
  }

  lemma BindKeeps(s: State, plan: CommandPlan)
    requires Inv(s) && CanBind(s)
    ensures Inv(DoBind(s, plan))
  {
    hide ExpectedAfterMatches, Plans, PlanAfter, ReceiptAt, DoneFiles;
    LastGroupIs(s.binding, s.stage);
    assert OpenGroups(s.binding, plan, []) == [StartedRecord(s.binding), PlannedGroup(s.binding, plan)];
  }

  lemma CloseFiles(s: State, terminal: Terminal)
    requires FilesInv(s) && CanClose(s, terminal)
    ensures FilesInv(DoClose(s, terminal)) && s.stage.Open? && s.stage.active.Idle?
    ensures HasWal(DoClose(s, terminal).dir)
  {
    hide ExpectedAfterMatches, DoneFiles, PlanAfter, ReceiptAt, GroupTip;
    SettledStage(s);
  }

  lemma CloseKeeps(s: State, terminal: Terminal)
    requires Inv(s) && CanClose(s, terminal)
    ensures Inv(DoClose(s, terminal))
  {
    hide ExpectedAfterMatches, FilesInv, Plans, PlanAfter, NextGroupPhase;
    CloseFiles(s, terminal);
    OwnersKept(s, DoClose(s, terminal));
  }

  lemma ReconciledStage(s: State)
    requires FilesInv(s) && s.dir.groups != [] && LastOf(s.dir.groups).phase == CommandReconciled
    ensures s.stage.Closed? || s.stage.Tail?
    ensures LastOf(s.dir.groups).chainDigest == ChainDigest(s.binding, s.stage.history)
    ensures LastOf(s.dir.groups).count == |s.stage.history|
  {
    hide ExpectedAfterMatches, ReceiptsKept, IdsDistinct, OperationFiles;
    LastGroupIs(s.binding, s.stage);
  }

  lemma PrepareCommandKeeps(s: State, content: nat)
    requires Inv(s) && CanPrepareCommand(s)
    ensures Inv(DoPrepareCommand(s, content))
  {
    hide ExpectedAfterMatches, PlanAfter, Plans, ReceiptAt, ChainDigest, OpenGroups, DoneOperations, ReconciledGroup;
    ReconciledStage(s);
    OwnersKept(s, DoPrepareCommand(s, content));
  }

  lemma InstallCommandReceiptKeeps(s: State)
    requires Inv(s) && CanInstallCommandReceipt(s)
    ensures Inv(DoInstallCommandReceipt(s))
  {
    hide ExpectedAfterMatches, PlanAfter, Plans, ReceiptAt, LaidOut, IdsDistinct, TerminalHolds, CompletionFor;
    var t := DoInstallCommandReceipt(s);
    SameFilesStay(s, t);
    OwnersKept(s, t);
  }

  lemma FinishFiles(s: State)
    requires FilesInv(s) && CanFinish(s)
    ensures FilesInv(DoFinish(s)) && s.stage.Closed? && s.stage.receipt.Some?
  {
    hide ExpectedAfterMatches, PlanAfter, ReceiptAt, ChainDigest, OpenGroups, DoneFiles, ReconciledGroup, ActiveFiles;
    var t := DoFinish(s);
    var operations := DoneOperations(s.binding, s.stage.history);
    if operations != [] {
      assert operations[0][0..] == operations[0];
      assert operations == [operations[0]] + operations[1..];
    }
    assert t.dir.operations == OperationFiles(s.binding, t.stage);
    assert t.dir.groups == GroupFiles(s.binding, t.stage);
  }

  lemma FinishKeeps(s: State)
    requires Inv(s) && CanFinish(s)
    ensures Inv(DoFinish(s))
  {
    hide ExpectedAfterMatches, FilesInv, Plans, PlanAfter;
    FinishFiles(s);
    OwnersKept(s, DoFinish(s));
  }

  // ---------------------------------------------------------------------- removal

  lemma TailStage(s: State)
    requires FilesInv(s) && CleaningUp(s.dir)
    ensures s.stage.Tail?
  {
    hide ExpectedAfterMatches, ReceiptsKept, IdsDistinct, OperationFiles, GroupFiles;
  }

  /** Unlinking the oldest file of the oldest operation moves the layout on by one file. */
  lemma DropFirstMoves(b: Binding, stage: Stage)
    requires WellFormed(stage) && stage.Tail? && stage.operation < |stage.history|
    ensures OperationFiles(b, stage) != [] && OperationFiles(b, stage)[0] != []
    ensures WellFormed(DroppedOnce(stage))
    ensures DropFirstFile(OperationFiles(b, stage), 0) == OperationFiles(b, DroppedOnce(stage))
  {
    hide DoneFiles, CompletionFor, PlanAfter;
    var done := DoneOperations(b, stage.history);
    var files := done[stage.operation];
    if stage.file < 3 {
      assert files[stage.file..][1..] == files[stage.file + 1..];
    } else if stage.operation + 1 < |stage.history| {
      assert done[stage.operation + 1][0..] == done[stage.operation + 1];
      assert done[stage.operation + 1..] == [done[stage.operation + 1]] + done[stage.operation + 2..];
    }
  }

  function DroppedOnce(stage: Stage): Stage
    requires stage.Tail?
  {
    if stage.file < 3 then stage.(file := stage.file + 1)
    else stage.(operation := stage.operation + 1, file := 0)
  }

  lemma DropOperationFiles(s: State)
    requires FilesInv(s) && CanDropOperation(s)
    ensures FilesInv(DoDropOperation(s)) && s.stage.Tail? && s.dir.commands != []
  {
    hide ExpectedAfterMatches, PlanAfter, ReceiptAt, DoneOperations, ClosedGroups, DropFirstFile, ValidCommandFiles, ExpectedReceipt;
    TailStage(s);
    DropFirstMoves(s.binding, s.stage);
    var t := DoDropOperation(s);
    assert t.stage == DroppedOnce(s.stage);
    hide OperationFiles;
    assert LaidOut(t.binding, t.stage, t.dir);
  }

  lemma DropOperationKeeps(s: State)
    requires Inv(s) && CanDropOperation(s)
    ensures Inv(DoDropOperation(s))
  {
    hide ExpectedAfterMatches, FilesInv, Plans, PlanAfter, DropFirstFile;
    DropOperationFiles(s);
    OwnersKept(s, DoDropOperation(s));
  }

  lemma DropGroupKeeps(s: State)
    requires Inv(s) && CanDropGroup(s)
    ensures Inv(DoDropGroup(s))
  {
    hide ExpectedAfterMatches, PlanAfter, Plans, ReceiptAt, DoneFiles, ClosedGroups, ValidCommandFiles;
    TailStage(s);
    OwnersKept(s, DoDropGroup(s));
  }

  lemma DropPreparedKeeps(s: State)
    requires Inv(s) && CanDropPrepared(s)
    ensures Inv(DoDropPrepared(s))
  {
    hide ExpectedAfterMatches, PlanAfter, Plans, ReceiptAt, DoneFiles, ClosedGroups, ValidCommandFiles;
    TailStage(s);
    OwnersKept(s, DoDropPrepared(s));
  }

  lemma DropTerminalGroupKeeps(s: State)
    requires Inv(s) && CanDropTerminalGroup(s)
    ensures Inv(DoDropTerminalGroup(s))
  {
    hide ExpectedAfterMatches, PlanAfter, ReceiptAt, DoneFiles, ValidCommandFiles, OpenGroups, ExpectedReceipt, ChainDigest;
    if s.dir.commands == [] {
      LastGroupIs(s.binding, s.stage);
    } else {
      TailStage(s);
    }
  }

  lemma DropTerminalCommandKeeps(s: State)
    requires Inv(s) && CanDropTerminalCommand(s)
    ensures Inv(DoDropTerminalCommand(s))
  {
    hide ExpectedAfterMatches, PlanAfter, Plans, ReceiptAt, DoneFiles, ValidCommandFiles, OpenGroups;
    TailStage(s);
  }

  lemma ClaimsKeep(s: State, l: Label)
    requires Inv(s) && (l.Claim? || l.Dispose?) && Enabled(s, l)
    ensures Inv(Next(s, l))
  {
    hide ExpectedAfterMatches, PlanAfter, Plans, ReceiptAt, LaidOut, IdsDistinct, TerminalHolds, CompletionFor;
    SameFilesStay(s, Next(s, l));
  }

  lemma ReleaseKeeps(s: State)
    requires Inv(s) && Enabled(s, ReleaseLock)
    ensures Inv(Next(s, ReleaseLock))
  {
    hide ExpectedAfterMatches, PlanAfter, Plans, ReceiptAt, OperationFiles, OpenGroups, TerminalHolds, IdsDistinct;
  }

  // ------------------------------------------------------------------------- runs

  lemma StepKeeps(s: State, l: Label)
    requires Inv(s) && Enabled(s, l)
    ensures Inv(Next(s, l))
  {
    hide Inv, CanStart, CanBind, CanPrepare, CanMark, CanSubmit, CanExecute, CanDeclareAmbiguous, CanSettle, CanInstallCompletion,
      CanInstallReceiptPhase, CanCheckpoint, CanClear, CanClose, CanPrepareCommand, CanInstallCommandReceipt, CanFinish,
      CanDropOperation, CanDropGroup, CanDropPrepared, CanDropTerminalGroup, CanDropTerminalCommand;
    match l
    case Start => StartKeeps(s);
    case Bind(plan) => BindKeeps(s, plan);
    case Prepare(draft) => PrepareKeeps(s, draft);
    case MarkUncertain => MarkKeeps(s);
    case Submit => SubmitKeeps(s);
    case Execute(after) => ExecuteKeeps(s, after);
    case Lose => ProcessStepsKeep(s, l);
    case MarkAmbiguous(identity) => AmbiguityKeeps(s, identity);
    case Settle(outcome) => SettleKeeps(s, outcome);
    case InstallCompletion => InstallCompletionKeeps(s);
    case InstallReceiptPhase => ReceiptPhaseKeeps(s);
    case Checkpoint => CheckpointKeeps(s);
    case Clear => ClearKeeps(s);
    case CloseCommand(terminal) => CloseKeeps(s, terminal);
    case PrepareCommand(content) => PrepareCommandKeeps(s, content);
    case InstallCommandReceipt => InstallCommandReceiptKeeps(s);
    case FinishCommand => FinishKeeps(s);
    case DropOperation => DropOperationKeeps(s);
    case DropGroup => DropGroupKeeps(s);
    case DropPrepared => DropPreparedKeeps(s);
    case DropTerminalGroup => DropTerminalGroupKeeps(s);
    case DropTerminalCommand => DropTerminalCommandKeeps(s);
    case Claim => ClaimsKeep(s, l);
    case Dispose => ClaimsKeep(s, l);
    case ReleaseLock => ReleaseKeeps(s);
    case Crash => ProcessStepsKeep(s, l);
    case Recover => ProcessStepsKeep(s, l);
  }

  /** A run: states joined by steps, from an operator that has just taken the lock. */
  ghost predicate IsRun(states: seq<State>, labels: seq<Label>) {
    && |states| == |labels| + 1
    && Init(states[0])
    && forall i | 0 <= i < |labels| :: Enabled(states[i], labels[i]) && states[i + 1] == Next(states[i], labels[i])
  }

  /** Whatever order of steps, remote events, deaths and recoveries: the invariant holds throughout. */
  lemma {:induction false} EveryRunIsSafe(states: seq<State>, labels: seq<Label>, i: nat)
    requires IsRun(states, labels) && i < |states|
    ensures Inv(states[i])
  {
    hide Inv, Enabled, Next, Init;
    if i == 0 {
      InitIsSafe(states[0]);
    } else {
      EveryRunIsSafe(states, labels, i - 1);
      assert Enabled(states[i - 1], labels[i - 1]);
      StepKeeps(states[i - 1], labels[i - 1]);
    }
  }
}
