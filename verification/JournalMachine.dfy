/**
 The cutover journal as a transition system: one durable step, one remote event, one
 process death or one start of recovery at a time. Guards read the directory and what the
 running process knows; `stage` is a history variable that no guard but Start reads.

 Assumed of the world: the server executes a request atomically and at most once; nobody
 else writes to it; a request of a dead process is no longer in flight once recovery has
 begun. What an executed request leaves need not be what its predicate accepts; one that
 leaves the snapshot as it was is not counted as a write.
 */
module JournalMachine {
  import opened Wrappers
  import opened SnapshotRules
  import opened JournalRecords
  import opened JournalLayout

  /** `operation` and `sent`: the operation this process prepared last, and whether it was submitted. */
  datatype Process =
    | Dead
    | Live(recovering: bool, operation: Option<nat>, sent: bool)

  datatype State = State(
    binding: Binding,
    dir: Directory,
    process: Process,
    inflight: Option<nat>,
    server: Snapshot,
    effects: seq<Plan>,
    stage: Stage)

  datatype Label =
    | Start
    | Bind(plan: CommandPlan)
    | Prepare(draft: Draft)
    | MarkUncertain
    | Submit
    | Execute(after: Snapshot)
    | Lose
    | MarkAmbiguous(identity: nat)
    | Settle(outcome: Evidence)
    | InstallCompletion
    | InstallReceiptPhase
    | Checkpoint
    | Clear
    | CloseCommand(terminal: Terminal)
    | PrepareCommand(content: nat)
    | InstallCommandReceipt
    | FinishCommand
    | DropOperation
    | DropGroup
    | DropPrepared
    | DropTerminalGroup
    | DropTerminalCommand
    | Claim
    | Dispose
    | ReleaseLock
    | Crash
    | Recover

  // ------------------------------------------------------------ reading the files

  predicate HasOperation(dir: Directory) {
    dir.operations != [] && dir.operations[|dir.operations| - 1] != []
  }

  function LastFiles(dir: Directory): seq<OperationRecord>
    requires HasOperation(dir)
  {
    dir.operations[|dir.operations| - 1]
  }

  function LastRecord(dir: Directory): OperationRecord
    requires HasOperation(dir)
  {
    Current(LastFiles(dir))
  }

  predicate Accepting(dir: Directory) {
    && dir.groups != [] && LastOf(dir.groups).phase in {Planned, OperationCheckpoint}
    && LastOf(dir.groups).plan.Some? && LastOf(dir.groups).ordinal == LastOf(dir.groups).count + 2
    && dir.commands == []
  }

  /** No operation is unfinished or unaccounted for. */
  predicate AtRest(dir: Directory) {
    Accepting(dir) && |dir.operations| == LastOf(dir.groups).count
  }

  predicate ActivePhase(dir: Directory, phase: Phase) {
    && Accepting(dir) && HasOperation(dir) && |dir.operations| == LastOf(dir.groups).count + 1
    && LastRecord(dir).phase == phase
  }

  ghost predicate CleaningUp(dir: Directory) {
    CommandInstalledIn(dir) && ValidCommandFiles(dir.commands)
  }

  // -------------------------------------------------------------- changing the files

  function AddGroup(dir: Directory, group: GroupRecord): Directory {
    dir.(groups := dir.groups + [group])
  }

  function AddPhase(dir: Directory, record: OperationRecord): Directory
    requires HasOperation(dir)
  {
    dir.(operations := dir.operations[..|dir.operations| - 1] + [LastFiles(dir) + [record]])
  }

  /** Installs the next phase of the last operation; an invalid phase fails and installs nothing. */
  function Advance(dir: Directory, phase: Phase, ambiguity: Option<nat>,
                   after: Option<Snapshot>, outcome: Option<Evidence>): (next: Directory)
    ensures next.lock == dir.lock && next.claims == dir.claims && next.groups == dir.groups
  {
    if !HasOperation(dir) then dir else
    match NextPhase(LastRecord(dir), phase, ambiguity, after, outcome)
    case None => dir
    case Some(record) => AddPhase(dir, record)
  }

  function AdvanceGroup(dir: Directory, phase: GroupPhase, plan: Option<CommandPlan>,
                        chainDigest: Digest, count: nat, terminal: Option<Terminal>): (next: Directory)
    requires phase != JournalRecords.Started
    ensures next.lock == dir.lock && next.claims == dir.claims
  {
    if dir.groups == [] then dir else
    match NextGroupPhase(LastOf(dir.groups), phase, plan, chainDigest, count, terminal)
    case None => dir
    case Some(group) => AddGroup(dir, group)
  }

  /** `removeInstalledFilesInOrder` unlinks the oldest file of an operation first. */
  function DropFirstFile(operations: seq<seq<OperationRecord>>, i: nat): seq<seq<OperationRecord>>
    requires i < |operations| && operations[i] != []
  {
    operations[..i]
    + (if |operations[i]| == 1 then [] else [operations[i][1..]])
    + operations[i + 1..]
  }

  function WithActive(stage: Stage, active: Active): Stage {
    if stage.Open? then stage.(active := active) else stage
  }

  // ------------------------------------------------------------------ steps: opening

  predicate Acting(s: State) {
    s.process.Live? && s.dir.lock
  }

  predicate CanStart(s: State) {
    Acting(s) && !s.process.recovering && !HasWal(s.dir) && s.stage.Fresh?
  }

  function DoStart(s: State): State {
    s.(dir := AddGroup(s.dir, StartedRecord(s.binding)), stage := Begun)
  }

  predicate CanBind(s: State) {
    && Acting(s) && !s.process.recovering && |s.dir.groups| == 1
    && s.dir.groups[0].phase == JournalRecords.Started && s.dir.groups[0].ordinal == 1 && s.dir.groups[0].count == 0
  }

  function DoBind(s: State, plan: CommandPlan): State
    requires CanBind(s)
  {
    var tip := LastOf(s.dir.groups);
    s.(dir := AdvanceGroup(s.dir, Planned, Some(plan), tip.chainDigest, tip.count, None), stage := Open(plan, [], Idle))
  }

  // --------------------------------------------------------------- steps: one operation

  predicate CanPrepare(s: State, draft: Draft) {
    && Acting(s) && AtRest(s.dir) && LastOf(s.dir.groups).count < MAX_OPERATION_RECEIPTS
    && (forall i | 0 <= i < |s.dir.operations| && s.dir.operations[i] != [] ::
          s.dir.operations[i][0].journalId != draft.journalId)
    && draft.before == s.server
    && !ExpectedAfterMatches(draft.before, draft.before, draft.expected)
  }

  function PreparedFor(s: State, draft: Draft): OperationRecord
    requires s.dir.groups != []
  {
    var tip := LastOf(s.dir.groups);
    var previous := if tip.count == 0 then None else Some(tip.chainDigest);
    PreparedRecord(Plan(s.binding, tip.count + 1, previous, draft.operation, draft.before, draft.expected), draft.journalId)
  }

  function DoPrepare(s: State, draft: Draft): State
    requires CanPrepare(s, draft)
  {
    s.(dir := s.dir.(operations := s.dir.operations + [[PreparedFor(s, draft)]]),
       process := s.process.(operation := Some(draft.journalId), sent := false),
       stage := WithActive(s.stage, Drafted(draft)))
  }

  predicate CanMark(s: State) {
    Acting(s) && ActivePhase(s.dir, Prepared) && s.process.operation == Some(LastRecord(s.dir).journalId)
  }

  function DoMark(s: State): State {
    s.(dir := Advance(s.dir, SubmissionUncertain, None, None, None),
       stage := if s.stage.Open? && s.stage.active.Drafted? then WithActive(s.stage, Marked(s.stage.active.draft)) else s.stage)
  }

  predicate CanSubmit(s: State) {
    && Acting(s) && ActivePhase(s.dir, SubmissionUncertain) && |LastFiles(s.dir)| == 2
    && s.process.operation == Some(LastRecord(s.dir).journalId) && !s.process.sent
  }

  function DoSubmit(s: State): State
    requires CanSubmit(s)
  {
    s.(process := s.process.(sent := true), inflight := Some(LastRecord(s.dir).journalId))
  }

  /** The server executes the request in flight, while the record is uncertain or declared ambiguous. */
  predicate CanExecute(s: State, after: Snapshot) {
    && s.inflight.Some?
    && (ActivePhase(s.dir, SubmissionUncertain) || ActivePhase(s.dir, ManualAmbiguity))
    && LastRecord(s.dir).journalId == s.inflight.value
    && after != LastRecord(s.dir).plan.before
  }

  function DoExecute(s: State, after: Snapshot): State
    requires CanExecute(s, after)
  {
    s.(server := after, effects := s.effects + [LastRecord(s.dir).plan], inflight := None)
  }

  predicate CanDeclareAmbiguous(s: State) {
    && Acting(s) && ActivePhase(s.dir, SubmissionUncertain) && |LastFiles(s.dir)| == 2
    && s.process.operation == Some(LastRecord(s.dir).journalId) && s.process.sent
  }

  function DoDeclareAmbiguous(s: State, identity: nat): State {
    s.(dir := Advance(s.dir, ManualAmbiguity, Some(identity), None, None),
       stage := if s.stage.Open? && s.stage.active.Marked? then WithActive(s.stage, Stuck(s.stage.active.draft, identity)) else s.stage)
  }

  predicate CanSettle(s: State) {
    && Acting(s) && ActivePhase(s.dir, SubmissionUncertain)
    && ExpectedAfterMatches(LastRecord(s.dir).plan.before, s.server, LastRecord(s.dir).plan.expected)
    && (!s.process.recovering ==> s.process.operation == Some(LastRecord(s.dir).journalId) && s.process.sent)
  }

  function DoSettle(s: State, outcome: Evidence): State {
    s.(dir := Advance(s.dir, Reconciled, None, Some(s.server), Some(outcome)),
       stage := if s.stage.Open? && s.stage.active.Marked?
                then WithActive(s.stage, Active.Settled(Done(s.stage.active.draft, s.server, outcome))) else s.stage)
  }

  predicate CanInstallCompletion(s: State) {
    Acting(s) && ActivePhase(s.dir, Reconciled) && LastRecord(s.dir).receipt.Some?
  }

  function DoInstallCompletion(s: State): State
    requires CanInstallCompletion(s)
  {
    s.(dir := s.dir.(completions := s.dir.completions + {LastRecord(s.dir).receipt.value}))
  }

  predicate CanInstallReceiptPhase(s: State) {
    && Acting(s) && ActivePhase(s.dir, Reconciled) && LastRecord(s.dir).receipt.Some?
    && LastRecord(s.dir).receipt.value in s.dir.completions
  }

  function DoInstallReceiptPhase(s: State): State
    requires CanInstallReceiptPhase(s)
  {
    s.(dir := Advance(s.dir, ReceiptInstalled, None, LastRecord(s.dir).after, LastRecord(s.dir).outcome),
       stage := if s.stage.Open? && s.stage.active.Settled? then WithActive(s.stage, Receipted(s.stage.active.done)) else s.stage)
  }

  predicate CanCheckpoint(s: State) {
    Acting(s) && ActivePhase(s.dir, ReceiptInstalled) && LastRecord(s.dir).receipt.Some?
  }

  function DoCheckpoint(s: State): State
    requires CanCheckpoint(s)
  {
    var digest := ReceiptDigest(LastRecord(s.dir).receipt.value);
    s.(dir := AdvanceGroup(s.dir, OperationCheckpoint, None, digest, LastOf(s.dir.groups).count + 1, None),
       stage := if s.stage.Open? && s.stage.active.Receipted?
                then Open(s.stage.plan, s.stage.history + [s.stage.active.done], Idle) else s.stage)
  }

  /** Unlinks the oldest file of an operation that is known not to have been executed. */
  predicate CanClear(s: State) {
    && Acting(s) && (ActivePhase(s.dir, Prepared) || ActivePhase(s.dir, SubmissionUncertain))
    && s.server == LastRecord(s.dir).plan.before
    && (if s.process.operation == Some(LastRecord(s.dir).journalId) then !s.process.sent else s.process.recovering)
  }

  function DoClear(s: State): State
    requires CanClear(s)
  {
    s.(dir := s.dir.(operations := DropFirstFile(s.dir.operations, |s.dir.operations| - 1)),
       stage := if s.stage.Open? && s.stage.active.Marked?
                then WithActive(s.stage, Clearing(s.stage.active.draft)) else WithActive(s.stage, Idle))
  }

  // -------------------------------------------------------------------- steps: closing

  predicate CanClose(s: State, terminal: Terminal) {
    && Acting(s) && AtRest(s.dir)
    && var plan := LastOf(s.dir.groups).plan.value;
       ExpectedAfterMatches(plan.before, terminal.after, plan.expected)
  }

  function DoClose(s: State, terminal: Terminal): State
    requires CanClose(s, terminal)
  {
    var tip := LastOf(s.dir.groups);
    s.(dir := AdvanceGroup(s.dir, CommandReconciled, None, tip.chainDigest, tip.count, Some(terminal)),
       stage := if s.stage.Open? then Closed(s.stage.plan, s.stage.history, terminal, None) else s.stage)
  }

  predicate CanPrepareCommand(s: State) {
    && Acting(s) && s.dir.groups != [] && LastOf(s.dir.groups).phase == CommandReconciled && s.dir.commands == []
  }

  function DoPrepareCommand(s: State, content: nat): State
    requires CanPrepareCommand(s)
  {
    var tip := LastOf(s.dir.groups);
    s.(dir := s.dir.(commands := [CommandRecord(CommandPrepared, None, s.binding, tip.chainDigest, tip.count, content, None)]),
       stage := if s.stage.Closed? then s.stage.(receipt := Some(content)) else s.stage)
  }

  predicate CanInstallCommandReceipt(s: State) {
    Acting(s) && s.dir.commands != []
  }

  function DoInstallCommandReceipt(s: State): State
    requires CanInstallCommandReceipt(s)
  {
    s.(dir := s.dir.(receipts := s.dir.receipts + {ExpectedReceipt(s.dir.commands[0])}))
  }

  ghost predicate CanFinish(s: State) {
    && Acting(s) && |s.dir.commands| == 1 && s.dir.commands[0].phase == CommandPrepared
    && ExpectedReceipt(s.dir.commands[0]) in s.dir.receipts
  }

  function DoFinish(s: State): State
    requires CanFinish(s)
  {
    s.(dir := s.dir.(commands := s.dir.commands + [InstalledCommand(s.dir.commands[0])]),
       stage := if s.stage.Closed? && s.stage.receipt.Some?
                then Tail(s.stage.plan, s.stage.history, s.stage.terminal, s.stage.receipt.value, 0, 0, 0, true) else s.stage)
  }

  // -------------------------------------------------------------------- steps: removal

  ghost predicate CanDropOperation(s: State) {
    Acting(s) && CleaningUp(s.dir) && s.dir.operations != [] && s.dir.operations[0] != []
  }

  function DoDropOperation(s: State): State
    requires CanDropOperation(s)
  {
    s.(dir := s.dir.(operations := DropFirstFile(s.dir.operations, 0)),
       stage := if !s.stage.Tail? then s.stage
                else if s.stage.file < 3 then s.stage.(file := s.stage.file + 1)
                else s.stage.(operation := s.stage.operation + 1, file := 0))
  }

  ghost predicate CanDropGroup(s: State) {
    Acting(s) && CleaningUp(s.dir) && s.dir.operations == [] && |s.dir.groups| > 1
  }

  function DoDropGroup(s: State): State
    requires CanDropGroup(s)
  {
    s.(dir := s.dir.(groups := s.dir.groups[1..]),
       stage := if s.stage.Tail? then s.stage.(group := s.stage.group + 1) else s.stage)
  }

  ghost predicate CanDropPrepared(s: State) {
    Acting(s) && CleaningUp(s.dir) && s.dir.operations == [] && |s.dir.commands| == 2
  }

  function DoDropPrepared(s: State): State
    requires CanDropPrepared(s)
  {
    s.(dir := s.dir.(commands := s.dir.commands[1..]),
       stage := if s.stage.Tail? then s.stage.(preparedLeft := false) else s.stage)
  }

  ghost predicate CanDropTerminalGroup(s: State) {
    && Acting(s) && s.dir.operations == [] && |s.dir.groups| == 1 && s.dir.claims == 0
    && (if s.dir.commands == [] then s.process.recovering && s.dir.groups[0].phase == JournalRecords.Started
        else CleaningUp(s.dir) && |s.dir.commands| == 1)
  }

  function DoDropTerminalGroup(s: State): State {
    s.(dir := s.dir.(groups := []),
       stage := if s.stage.Tail? then s.stage.(group := s.stage.group + 1) else Finished([], None))
  }

  ghost predicate CanDropTerminalCommand(s: State) {
    && Acting(s) && CleaningUp(s.dir) && s.dir.operations == [] && s.dir.groups == []
    && |s.dir.commands| == 1 && s.dir.claims == 0
  }

  function DoDropTerminalCommand(s: State): State {
    s.(dir := s.dir.(commands := []),
       stage := if s.stage.Tail?
                then Finished(s.stage.history, Some(ExpectedReceipt(PreparedCommand(s.binding, s.stage.history, s.stage.content))))
                else s.stage)
  }

  // ------------------------------------------------------------------------ labels

  ghost predicate Enabled(s: State, l: Label) {
    match l
    case Start => CanStart(s)
    case Bind(_) => CanBind(s)
    case Prepare(draft) => CanPrepare(s, draft)
    case MarkUncertain => CanMark(s)
    case Submit => CanSubmit(s)
    case Execute(after) => CanExecute(s, after)
    case Lose => s.inflight.Some?
    case MarkAmbiguous(_) => CanDeclareAmbiguous(s)
    case Settle(_) => CanSettle(s)
    case InstallCompletion => CanInstallCompletion(s)
    case InstallReceiptPhase => CanInstallReceiptPhase(s)
    case Checkpoint => CanCheckpoint(s)
    case Clear => CanClear(s)
    case CloseCommand(terminal) => CanClose(s, terminal)
    case PrepareCommand(_) => CanPrepareCommand(s)
    case InstallCommandReceipt => CanInstallCommandReceipt(s)
    case FinishCommand => CanFinish(s)
    case DropOperation => CanDropOperation(s)
    case DropGroup => CanDropGroup(s)
    case DropPrepared => CanDropPrepared(s)
    case DropTerminalGroup => CanDropTerminalGroup(s)
    case DropTerminalCommand => CanDropTerminalCommand(s)
    case Claim => Acting(s) && s.process.recovering && HasWal(s.dir)
    case Dispose => Acting(s) && s.process.recovering && s.dir.claims > 0
    case ReleaseLock => Acting(s) && !HasWal(s.dir) && s.dir.claims == 0
    case Crash => s.process.Live?
    case Recover => s.process.Dead? && s.dir.lock
  }

  function Next(s: State, l: Label): State
    requires Enabled(s, l)
  {
    match l
    case Start => DoStart(s)
    case Bind(plan) => DoBind(s, plan)
    case Prepare(draft) => DoPrepare(s, draft)
    case MarkUncertain => DoMark(s)
    case Submit => DoSubmit(s)
    case Execute(after) => DoExecute(s, after)
    case Lose => s.(inflight := None)
    case MarkAmbiguous(identity) => DoDeclareAmbiguous(s, identity)
    case Settle(outcome) => DoSettle(s, outcome)
    case InstallCompletion => DoInstallCompletion(s)
    case InstallReceiptPhase => DoInstallReceiptPhase(s)
    case Checkpoint => DoCheckpoint(s)
    case Clear => DoClear(s)
    case CloseCommand(terminal) => DoClose(s, terminal)
    case PrepareCommand(content) => DoPrepareCommand(s, content)
    case InstallCommandReceipt => DoInstallCommandReceipt(s)
    case FinishCommand => DoFinish(s)
    case DropOperation => DoDropOperation(s)
    case DropGroup => DoDropGroup(s)
    case DropPrepared => DoDropPrepared(s)
    case DropTerminalGroup => DoDropTerminalGroup(s)
    case DropTerminalCommand => DoDropTerminalCommand(s)
    case Claim => s.(dir := s.dir.(claims := s.dir.claims + 1))
    case Dispose => s.(dir := s.dir.(claims := s.dir.claims - 1))
    case ReleaseLock => s.(dir := s.dir.(lock := false))
    case Crash => s.(process := Dead)
    case Recover => s.(process := Live(true, None, false), inflight := None)
  }

  // ------------------------------------------------------------------------ invariant

  predicate InDoubt(stage: Stage) {
    stage.Open? && (stage.active.Marked? || stage.active.Stuck?)
  }

  function ActivePlan(s: State): Plan
    requires s.stage.Open? && !s.stage.active.Idle?
  {
    PlanAfter(s.binding, s.stage.history, DraftOf(s.stage.active))
  }

  /** The server has executed the unfinished operation. */
  ghost predicate Executed(s: State)
    requires s.stage.Open? && !s.stage.active.Idle?
  {
    s.effects == Plans(s.binding, s.stage.history) + [ActivePlan(s)]
  }

  /** The remote writes so far are those of the completed operations, plus at most the unfinished one. */
  ghost predicate EffectsMatch(s: State) {
    var completed := Plans(s.binding, History(s.stage));
    if s.stage.Open? && (s.stage.active.Settled? || s.stage.active.Receipted?) then Executed(s)
    else if InDoubt(s.stage) then s.effects == completed || Executed(s)
    else s.effects == completed
  }

  ghost predicate ServerMatches(s: State) {
    s.stage.Open? && !s.stage.active.Idle? ==>
      var draft := DraftOf(s.stage.active);
      && !ExpectedAfterMatches(draft.before, draft.before, draft.expected)
      && (s.stage.active.Drafted? || s.stage.active.Clearing? ==> s.server == draft.before)
      && (InDoubt(s.stage) ==>
            if s.effects == Plans(s.binding, s.stage.history) then s.server == draft.before
            else s.server != draft.before)
  }

  predicate Unfinished(stage: Stage) {
    stage.Open? && !stage.active.Idle?
  }

  predicate Accepted(done: Done) {
    ExpectedAfterMatches(done.draft.before, done.after, done.draft.expected)
  }

  /**
   The operations hang together: each was accepted by its predicate, began where the one before
   it ended, and the server is still where the last one left it.
   */
  ghost predicate SnapshotsFollow(s: State) {
    var history := History(s.stage);
    && (forall k | 0 <= k < |history| :: Accepted(history[k]))
    && (forall k | 0 < k < |history| :: history[k].draft.before == history[k - 1].after)
    && (history != [] ==>
          (if Unfinished(s.stage) then DraftOf(s.stage.active).before else s.server) == history[|history| - 1].after)
    && (s.stage.Open? && (s.stage.active.Settled? || s.stage.active.Receipted?) ==>
          Accepted(s.stage.active.done) && s.server == s.stage.active.done.after)
  }

  ghost predicate ReceiptsKept(s: State) {
    && (forall k | 0 <= k < |History(s.stage)| :: ReceiptAt(s.binding, History(s.stage), k) in s.dir.completions)
    && (s.stage.Open? && s.stage.active.Receipted? ==>
          CompletionFor(ActivePlan(s), s.stage.active.done.after, s.stage.active.done.outcome) in s.dir.completions)
    && (s.stage.Tail? ==>
          ExpectedReceipt(PreparedCommand(s.binding, s.stage.history, s.stage.content)) in s.dir.receipts)
    && (s.stage.Finished? && s.stage.result.Some? ==> s.stage.result.value in s.dir.receipts)
  }

  ghost predicate InflightMatches(s: State) {
    s.inflight.Some? ==>
      && InDoubt(s.stage)
      && s.inflight.value == s.stage.active.draft.journalId
      && s.effects == Plans(s.binding, s.stage.history)
      && (s.process.Live? ==> s.process.operation == s.inflight && s.process.sent)
  }

  /** What the running process prepared and has not submitted is not executed. */
  ghost predicate UnsentMatches(s: State) {
    s.process.Live? && !s.process.sent && InDoubt(s.stage) && s.process.operation == Some(s.stage.active.draft.journalId) ==>
      s.effects == Plans(s.binding, s.stage.history)
  }

  ghost predicate OwnersMatch(s: State) {
    && (s.dir.claims > 0 ==> HasWal(s.dir))
    && (HasWal(s.dir) ==> s.dir.lock)
    && (s.process.Live? && !s.process.recovering ==> s.dir.claims == 0)
    && (!s.dir.lock ==> s.stage.Fresh? || s.stage.Finished?)
  }

  ghost predicate IdsDistinct(stage: Stage) {
    var history := History(stage);
    && (forall i, j | 0 <= i < j < |history| :: history[i].draft.journalId != history[j].draft.journalId)
    && (stage.Open? && !stage.active.Idle? ==>
          forall i | 0 <= i < |history| :: history[i].draft.journalId != DraftOf(stage.active).journalId)
  }

  /** The files are where the history says, and every receipt of the history is kept. */
  ghost predicate FilesInv(s: State) {
    && LaidOut(s.binding, s.stage, s.dir)
    && TerminalHolds(s.stage)
    && IdsDistinct(s.stage)
    && ReceiptsKept(s)
  }

  /** The server has executed what the history says, and nothing else. */
  ghost predicate RemoteInv(s: State) {
    && EffectsMatch(s)
    && ServerMatches(s)
    && SnapshotsFollow(s)
    && InflightMatches(s)
    && UnsentMatches(s)
  }

  ghost predicate Inv(s: State) {
    FilesInv(s) && RemoteInv(s) && OwnersMatch(s)
  }

  predicate Init(s: State) {
    && s.dir.lock && s.dir.claims == 0 && !HasWal(s.dir)
    && s.process == Live(false, None, false) && s.inflight == None
    && s.effects == [] && s.stage == Fresh
  }

  lemma InitIsSafe(s: State)
    requires Init(s)
    ensures Inv(s)
  {
    assert Plans(s.binding, []) == [];
  }
}
