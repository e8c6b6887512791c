/**
 The records of the cutover journal and the checks its readers make
 (scripts/greater-realm-cutover-operation-journal.ts).

 SHA-256 is a free constructor: a digest is the body it was taken of, so distinct bodies
 have distinct digests and nothing else is known about them.
 */
module JournalRecords {
  import opened Wrappers
  import opened SnapshotRules

  const MAX_OPERATION_RECEIPTS: nat := 4096

  datatype Digest = Sha256(body: Body)

  datatype Body =
    | EmptyChain(command: Binding)
    | PlanBody(plan: Plan)
    | SnapshotBody(snapshot: Snapshot)
    | PredicateBody(expected: Predicate)
    | OperationBody(operation: OperationRecord)
    | CompletionBody(receipt: CompletionReceipt)
    | GroupBody(group: GroupRecord)
    | CommandBody(record: CommandRecord)
    | CommandReceiptBody(recipient: Binding, chainDigest: Digest, count: nat, content: nat)

  datatype CommandKind = Import | Relocation | Publish

  /** What every record of one command repeats: lock, command, target, release and retained artifact. */
  datatype Binding = Binding(lock: nat, kind: CommandKind, release: nat, artifact: Option<nat>)

  datatype Operation = Operation(name: string, argumentsDigest: nat)

  /** `planCore`: everything that is fixed before an operation is submitted. */
  datatype Plan = Plan(
    binding: Binding,
    ordinal: nat,
    previousReceipt: Option<Digest>,
    operation: Operation,
    before: Snapshot,
    expected: Predicate)

  datatype Evidence = Verified | VerifiedAfterSubmissionError | RecoveredAfterOwnerDeath

  datatype CompletionReceipt = CompletionReceipt(
    planDigest: Digest,
    binding: Binding,
    ordinal: nat,
    previousReceipt: Option<Digest>,
    operation: Operation,
    beforeDigest: Digest,
    expectedDigest: Digest,
    afterDigest: Digest,
    auditChanged: bool,
    outcome: Evidence)

  // ------------------------------------------------------------ operation phases

  datatype Phase = Prepared | SubmissionUncertain | ManualAmbiguity | Reconciled | ReceiptInstalled

  function PhaseOrdinal(phase: Phase): nat {
    match phase
    case Prepared => 1
    case SubmissionUncertain => 2
    case ManualAmbiguity => 3
    case Reconciled => 3
    case ReceiptInstalled => 4
  }

  datatype OperationRecord = OperationRecord(
    journalId: nat,
    phase: Phase,
    previousPhase: Option<Digest>,
    plan: Plan,
    ambiguity: Option<nat>,
    after: Option<Snapshot>,
    outcome: Option<Evidence>,
    receipt: Option<CompletionReceipt>)

  function CompletionFor(plan: Plan, after: Snapshot, outcome: Evidence): CompletionReceipt {
    CompletionReceipt(
      Sha256(PlanBody(plan)), plan.binding, plan.ordinal, plan.previousReceipt, plan.operation,
      Sha256(SnapshotBody(plan.before)), Sha256(PredicateBody(plan.expected)), Sha256(SnapshotBody(after)),
      after.audit != plan.before.audit, outcome)
  }

  function ReceiptDigest(receipt: CompletionReceipt): Digest {
    Sha256(CompletionBody(receipt))
  }

  function PreparedRecord(plan: Plan, journalId: nat): OperationRecord {
    OperationRecord(journalId, Prepared, None, plan, None, None, None, None)
  }

  /** `nextPhase` */
  function NextPhase(previous: OperationRecord, phase: Phase, ambiguity: Option<nat>,
                     after: Option<Snapshot>, outcome: Option<Evidence>): (next: Option<OperationRecord>)
  {
    if PhaseOrdinal(phase) != PhaseOrdinal(previous.phase) + 1 then None else
    Some(OperationRecord(
      previous.journalId, phase, Some(Sha256(OperationBody(previous))), previous.plan, ambiguity, after, outcome,
      if after.Some? && outcome.Some? then Some(CompletionFor(previous.plan, after.value, outcome.value)) else None))
  }

  /** The shape and receipt checks of `parseJournalRecord`. */
  ghost predicate ParsesOperation(record: OperationRecord) {
    && 1 <= record.plan.ordinal <= MAX_OPERATION_RECEIPTS
    && (record.ambiguity.Some? <==> record.phase == ManualAmbiguity)
    && (record.phase in {Reconciled, ReceiptInstalled} <==> record.after.Some?)
    && (record.after.Some? <==> record.outcome.Some?)
    && (record.after.Some? <==> record.receipt.Some?)
    && (record.after.Some? ==>
          record.receipt == Some(CompletionFor(record.plan, record.after.value, record.outcome.value)))
  }

  /** The files of one journal id, by phase ordinal: one unbroken phase chain over one plan. */
  ghost predicate ValidOperationFiles(files: seq<OperationRecord>): (valid: bool)
    ensures valid ==> files != []
  {
    && files != []
    && (PhaseOrdinal(files[0].phase) == 1 ==> files[0].previousPhase == None)
    && forall i | 0 <= i < |files| :: FollowsOn(files, i)
  }

  ghost predicate FollowsOn(files: seq<OperationRecord>, i: nat)
    requires i < |files|
  {
    && ParsesOperation(files[i])
    && files[i].journalId == files[0].journalId
    && files[i].plan == files[0].plan
    && (0 < i ==>
          && PhaseOrdinal(files[i].phase) == PhaseOrdinal(files[i - 1].phase) + 1
          && files[i].previousPhase == Some(Sha256(OperationBody(files[i - 1]))))
  }

  function Current(files: seq<OperationRecord>): OperationRecord
    requires files != []
  {
    files[|files| - 1]
  }

  // --------------------------------------------------------- command group phases

  datatype GroupPhase = Started | Planned | OperationCheckpoint | CommandReconciled

  datatype CommandPlan = CommandPlan(before: Snapshot, receiptBefore: Snapshot, expected: Predicate)
  datatype Terminal = Terminal(after: Snapshot, receiptAfter: Snapshot)

  datatype GroupRecord = GroupRecord(
    phase: GroupPhase,
    ordinal: nat,
    previousPhase: Option<Digest>,
    binding: Binding,
    plan: Option<CommandPlan>,
    chainDigest: Digest,
    count: nat,
    terminal: Option<Terminal>)

  function StartedRecord(binding: Binding): GroupRecord {
    GroupRecord(Started, 1, None, binding, None, Sha256(EmptyChain(binding)), 0, None)
  }

  /** `nextCommandGroupPhase` */
  function NextGroupPhase(previous: GroupRecord, phase: GroupPhase, plan: Option<CommandPlan>,
                          chainDigest: Digest, count: nat, terminal: Option<Terminal>): (next: Option<GroupRecord>)
    requires phase != Started
  {
    var ordinal := if phase == Planned then 2 else if phase == OperationCheckpoint then count + 2 else count + 3;
    if previous.phase == CommandReconciled || previous.ordinal + 1 != ordinal then None else
    Some(GroupRecord(
      phase, ordinal, Some(Sha256(GroupBody(previous))), previous.binding,
      if plan.Some? then plan else previous.plan, chainDigest, count, terminal))
  }

  /** The shape checks of `parseCommandGroupRecord`. */
  ghost predicate ParsesGroup(group: GroupRecord) {
    && 1 <= group.ordinal <= MAX_OPERATION_RECEIPTS + 3
    && group.count <= MAX_OPERATION_RECEIPTS
    && (group.terminal.Some? <==> group.phase == CommandReconciled)
    && (group.plan.Some? <==> group.phase != Started)
    && (group.previousPhase.Some? <==> group.phase != Started)
    && (match group.phase
        case Started => group.ordinal == 1 && group.count == 0
        case Planned => group.ordinal == 2 && group.count == 0
        case OperationCheckpoint => group.ordinal == group.count + 2 && 1 <= group.count
        case CommandReconciled =>
          && group.ordinal == group.count + 3
          && ExpectedAfterMatches(group.plan.value.before, group.terminal.value.after, group.plan.value.expected))
    && (group.count == 0 ==> group.chainDigest == Sha256(EmptyChain(group.binding)))
  }

  /** `commandGroupJournalFiles` on a non-empty listing. */
  ghost predicate ValidGroupFiles(files: seq<GroupRecord>) {
    && 0 < |files| <= MAX_OPERATION_RECEIPTS + 3
    && (files[0].ordinal == 1 <==> files[0].previousPhase == None)
    && forall i | 0 <= i < |files| :: GroupFollowsOn(files, i)
  }

  ghost predicate GroupFollowsOn(files: seq<GroupRecord>, i: nat)
    requires i < |files|
  {
    && ParsesGroup(files[i])
    && files[i].ordinal == files[0].ordinal + i
    && files[i].binding == files[0].binding
    && (0 < i ==>
          && files[i].previousPhase == Some(Sha256(GroupBody(files[i - 1])))
          && (files[i].phase != Planned ==> files[i].plan == files[i - 1].plan)
          && (files[i].phase == OperationCheckpoint ==> files[i].count == files[i - 1].count + 1)
          && (files[i].phase == CommandReconciled ==> files[i].count == files[i - 1].count))
  }

  // ------------------------------------------------------------- command receipt

  datatype CommandPhase = CommandPrepared | CommandInstalled

  datatype CommandRecord = CommandRecord(
    phase: CommandPhase,
    previousPhase: Option<Digest>,
    binding: Binding,
    chainDigest: Digest,
    count: nat,
    content: nat,
    installed: Option<Digest>)

  function ExpectedReceipt(record: CommandRecord): Digest {
    Sha256(CommandReceiptBody(record.binding, record.chainDigest, record.count, record.content))
  }

  function InstalledCommand(prepared: CommandRecord): CommandRecord {
    prepared.(phase := CommandInstalled, previousPhase := Some(Sha256(CommandBody(prepared))),
              installed := Some(ExpectedReceipt(prepared)))
  }

  /** The shape checks of `parseCommandJournalRecord`. */
  ghost predicate ParsesCommand(record: CommandRecord) {
    && record.count <= MAX_OPERATION_RECEIPTS
    && (record.phase == CommandInstalled <==> record.previousPhase.Some?)
    && record.installed == if record.phase == CommandInstalled then Some(ExpectedReceipt(record)) else None
  }

  /** `commandJournalFiles` */
  ghost predicate ValidCommandFiles(files: seq<CommandRecord>) {
    && |files| <= 2
    && (forall i | 0 <= i < |files| :: ParsesCommand(files[i]))
    && (|files| == 2 ==>
          && files[0].phase == CommandPrepared && files[1].phase == CommandInstalled
          && files[1].previousPhase == Some(Sha256(CommandBody(files[0]))))
  }

  // ------------------------------------------------------------------- directory

  /**
   The private directory. Journal files are held as the readers present them: operations
   by ordinal and then by phase, command groups by ordinal. Completion receipts and
   command receipts are named by their digest, so a set of bodies is enough.
   */
  datatype Directory = Directory(
    lock: bool,
    claims: nat,
    groups: seq<GroupRecord>,
    operations: seq<seq<OperationRecord>>,
    commands: seq<CommandRecord>,
    completions: set<CompletionReceipt>,
    receipts: set<Digest>)

  predicate HasWal(dir: Directory) {
    dir.groups != [] || dir.operations != [] || dir.commands != []
  }

  predicate CommandInstalledIn(dir: Directory) {
    dir.commands != [] && dir.commands[|dir.commands| - 1].phase == CommandInstalled
  }

  datatype RecoveryMode = JournalMode | CommandReceiptMode | LockOnlyMode | Rejected

  /** `inspectGreaterRealmCutoverOperatorJournalRecovery`: which recovery a directory asks for. */
  ghost function InspectMode(dir: Directory): RecoveryMode {
    if !HasWal(dir) then
      if dir.claims != 0 then Rejected else LockOnlyMode
    else if dir.groups != [] then
      if ValidGroupFiles(dir.groups) then JournalMode else Rejected
    else if dir.operations == [] && |dir.commands| == 1 && CommandInstalledIn(dir)
            && ValidCommandFiles(dir.commands)
            && dir.commands[0].installed == Some(ExpectedReceipt(dir.commands[0]))
            && ExpectedReceipt(dir.commands[0]) in dir.receipts then
      CommandReceiptMode
    else
      Rejected
  }

  function LastOf(groups: seq<GroupRecord>): GroupRecord
    requires groups != []
  {
    groups[|groups| - 1]
  }

  ghost predicate CleanupTail(dir: Directory)
    requires dir.groups != []
  {
    CommandInstalledIn(dir) && LastOf(dir.groups).phase == CommandReconciled
  }

  /** How many leading operations have their receipt installed. */
  ghost function CompletedCount(operations: seq<seq<OperationRecord>>): (n: nat)
    requires forall i | 0 <= i < |operations| :: operations[i] != []
    ensures n <= |operations|
    ensures forall i | 0 <= i < n :: Current(operations[i]).phase == ReceiptInstalled
    ensures n < |operations| ==> Current(operations[n]).phase != ReceiptInstalled
  {
    if operations == [] || Current(operations[0]).phase != ReceiptInstalled then 0
    else 1 + CompletedCount(operations[1..])
  }

  ghost predicate ReadableOperations(operations: seq<seq<OperationRecord>>) {
    && |operations| <= MAX_OPERATION_RECEIPTS
    && forall i | 0 <= i < |operations| :: ValidOperationFiles(operations[i])
  }

  ghost function FirstOrdinal(operations: seq<seq<OperationRecord>>): nat
    requires ReadableOperations(operations)
  {
    if operations == [] then 1 else Current(operations[0]).plan.ordinal
  }

  /** The plan of operation `i` continues the receipts of the operations before it. */
  ghost predicate LinksBack(operations: seq<seq<OperationRecord>>, i: nat, tail: bool)
    requires ReadableOperations(operations) && i < |operations|
  {
    var plan := Current(operations[i]).plan;
    if i == 0 then
      if plan.ordinal == 1 then plan.previousReceipt == None else tail && plan.previousReceipt.Some?
    else
      var previous := Current(operations[i - 1]);
      && previous.phase == ReceiptInstalled
      && previous.receipt.Some?
      && plan.previousReceipt == Some(ReceiptDigest(previous.receipt.value))
  }

  ghost predicate OperationChainAdmits(operations: seq<seq<OperationRecord>>, binding: Binding, tail: bool) {
    ReadableOperations(operations) && forall i | 0 <= i < |operations| :: OperationAdmits(operations, i, binding, tail)
  }

  ghost predicate OperationAdmits(operations: seq<seq<OperationRecord>>, i: nat, binding: Binding, tail: bool)
    requires ReadableOperations(operations) && i < |operations|
  {
    var record := Current(operations[i]);
    && record.plan.ordinal == (if tail then FirstOrdinal(operations) + i else i + 1)
    && record.plan.binding == binding
    && LinksBack(operations, i, tail)
    && (tail ==> record.phase == ReceiptInstalled)
  }

  /** After the command receipt is installed: what is left still ends in the recorded tip. */
  ghost predicate TailAdmits(dir: Directory, tip: GroupRecord) {
    ReadableOperations(dir.operations) && dir.commands != [] &&
    var command := dir.commands[|dir.commands| - 1];
    && command.count == tip.count && command.chainDigest == tip.chainDigest
    && FirstOrdinal(dir.operations) <= tip.count + 1
    && (dir.operations != [] ==>
          var last := Current(dir.operations[|dir.operations| - 1]);
          && last.plan.ordinal == tip.count
          && last.receipt.Some? && ReceiptDigest(last.receipt.value) == tip.chainDigest)
  }

  /** Before that: the checkpoint is at most one behind, and names the receipt it counted last. */
  ghost predicate CheckpointAdmits(operations: seq<seq<OperationRecord>>, tip: GroupRecord) {
    ReadableOperations(operations) &&
    var completed := CompletedCount(operations);
    && |operations| - completed <= 1
    && tip.count <= completed <= tip.count + 1
    && (if tip.count == 0 then tip.chainDigest == Sha256(EmptyChain(tip.binding))
        else
          var last := Current(operations[tip.count - 1]);
          last.receipt.Some? && tip.chainDigest == ReceiptDigest(last.receipt.value))
  }

  /** Every check `recoverGreaterRealmCutoverOperationJournal` makes before it first writes. */
  ghost predicate RecoveryAdmits(dir: Directory) {
    && ValidGroupFiles(dir.groups)
    && ValidCommandFiles(dir.commands)
    && var tip := LastOf(dir.groups);
       && (forall i | 0 <= i < |dir.commands| :: dir.commands[i].binding == tip.binding)
       && OperationChainAdmits(dir.operations, tip.binding, CleanupTail(dir))
       && (if CleanupTail(dir) then TailAdmits(dir, tip) else CheckpointAdmits(dir.operations, tip))
  }
}
