/**
 The readers of the private directory, check by check as recovery makes them, each against the
 predicate that says what it accepts (scripts/greater-realm-cutover-operation-journal.ts and
 scripts/greater-realm-cutover-receipts.ts).
 */
module JournalReaders {
  import opened Wrappers
  import opened SnapshotRules
  import opened JournalRecords

  // -------------------------------------------------------------------- operation files

  /** `parseJournalRecord`, after the shapes of its fields. */
  method ParseOperation(record: OperationRecord) returns (ok: bool)
    ensures ok <==> ParsesOperation(record)
  {
    if record.plan.ordinal < 1 || record.plan.ordinal > MAX_OPERATION_RECEIPTS { return false; }
    if record.phase == Prepared || record.phase == SubmissionUncertain {
      if record.ambiguity.Some? || record.after.Some? || record.outcome.Some? || record.receipt.Some? { return false; }
    } else if record.phase == ManualAmbiguity {
      if record.ambiguity.None? || record.after.Some? || record.outcome.Some? || record.receipt.Some? { return false; }
    } else if record.ambiguity.Some? || record.after.None? || record.outcome.None? || record.receipt.None? {
      return false;
    }
    ok := true;
    if record.after.Some? && record.outcome.Some? && record.receipt.Some? {
      ok := record.receipt.value == CompletionFor(record.plan, record.after.value, record.outcome.value);
    }
  }

  /** The checks of `recoveryOperationGroups` on the files of one journal id, by phase ordinal. */
  method ReadOperationFiles(files: seq<OperationRecord>) returns (ok: bool)
    ensures ok <==> ValidOperationFiles(files)
  {
    if files == [] { return false; }
    for index := 0 to |files|
      invariant index > 0 && PhaseOrdinal(files[0].phase) == 1 ==> files[0].previousPhase == None
      invariant forall i | 0 <= i < index :: FollowsOn(files, i)
    {
      var file := files[index];
      ok := ParseOperation(file);
      if !ok {
        assert !FollowsOn(files, index);
        return;
      }
      if index > 0 {
        var previous := files[index - 1];
        if PhaseOrdinal(file.phase) != PhaseOrdinal(previous.phase) + 1
           || file.previousPhase != Some(Sha256(OperationBody(previous)))
        {
          assert !FollowsOn(files, index);
          return false;
        }
      } else if PhaseOrdinal(file.phase) == 1 && file.previousPhase != None {
        return false;
      }
      if file.journalId != files[0].journalId || file.plan != files[0].plan {
        assert !FollowsOn(files, index);
        return false;
      }
    }
    ok := true;
  }

  // ----------------------------------------------------------------------- group files

  /** `parseCommandGroupRecord` */
  method ParseGroup(group: GroupRecord) returns (ok: bool)
    ensures ok <==> ParsesGroup(group)
  {
    hide ExpectedAfterMatches;
    if group.ordinal < 1 || group.ordinal > MAX_OPERATION_RECEIPTS + 3 || group.count > MAX_OPERATION_RECEIPTS { return false; }
    match group.phase {
      case Started =>
        if group.ordinal != 1 || group.previousPhase.Some? || group.count != 0 || group.plan.Some? || group.terminal.Some? {
          return false;
        }
      case Planned =>
        if group.ordinal != 2 || group.previousPhase.None? || group.count != 0 || group.plan.None? || group.terminal.Some? {
          return false;
        }
      case OperationCheckpoint =>
        if group.ordinal != group.count + 2 || group.previousPhase.None? || group.count < 1
           || group.plan.None? || group.terminal.Some?
        {
          return false;
        }
      case CommandReconciled =>
        if group.ordinal != group.count + 3 || group.previousPhase.None? || group.plan.None? || group.terminal.None? {
          return false;
        }
        if !ExpectedAfterMatches(group.plan.value.before, group.terminal.value.after, group.plan.value.expected) { return false; }
    }
    ok := group.count != 0 || group.chainDigest == Sha256(EmptyChain(group.binding));
  }

  /** `commandGroupJournalFiles`, by ordinal. */
  method ReadGroupFiles(files: seq<GroupRecord>) returns (ok: bool)
    ensures ok <==> ValidGroupFiles(files)
  {
    hide ParsesGroup;
    if |files| < 1 || |files| > MAX_OPERATION_RECEIPTS + 3 { return false; }
    for index := 0 to |files|
      invariant index > 0 ==> (files[0].ordinal == 1 <==> files[0].previousPhase == None)
      invariant forall i | 0 <= i < index :: GroupFollowsOn(files, i)
    {
      var file := files[index];
      ok := ParseGroup(file);
      if !ok || file.ordinal != files[0].ordinal + index || file.binding != files[0].binding {
        assert !GroupFollowsOn(files, index);
        return false;
      }
      if index == 0 {
        if (file.ordinal == 1 && file.previousPhase.Some?) || (file.ordinal != 1 && file.previousPhase.None?) { return false; }
      } else {
        var previous := files[index - 1];
        if file.previousPhase != Some(Sha256(GroupBody(previous)))
           || (file.phase != Planned && file.plan != previous.plan)
           || (file.phase == OperationCheckpoint && file.count != previous.count + 1)
           || (file.phase == CommandReconciled && file.count != previous.count)
        {
          assert !GroupFollowsOn(files, index);
          return false;
        }
      }
    }
    ok := true;
  }

  // --------------------------------------------------------------------- command files

  /** `parseCommandJournalRecord` */
  method ParseCommand(record: CommandRecord) returns (ok: bool)
    ensures ok <==> ParsesCommand(record)
  {
    if record.count > MAX_OPERATION_RECEIPTS { return false; }
    if record.phase == CommandPrepared && (record.previousPhase.Some? || record.installed.Some?) { return false; }
    ok := !(record.phase == CommandInstalled && (record.previousPhase.None? || record.installed != Some(ExpectedReceipt(record))));
  }

  /** `commandJournalFiles` */
  method ReadCommandFiles(files: seq<CommandRecord>) returns (ok: bool)
    ensures ok <==> ValidCommandFiles(files)
  {
    hide ParsesCommand;
    if |files| > 2 { return false; }
    for index := 0 to |files|
      invariant forall i | 0 <= i < index :: ParsesCommand(files[i])
    {
      ok := ParseCommand(files[index]);
      if !ok { return; }
    }
    ok := true;
    if |files| == 2 {
      ok := files[0].phase == CommandPrepared && files[1].phase == CommandInstalled
            && files[1].previousPhase == Some(Sha256(CommandBody(files[0])));
    }
  }

  // -------------------------------------------------------------------- the operations

  method ReadOperations(operations: seq<seq<OperationRecord>>) returns (ok: bool)
    ensures ok <==> ReadableOperations(operations)
  {
    hide ValidOperationFiles;
    if |operations| > MAX_OPERATION_RECEIPTS { return false; }
    for index := 0 to |operations|
      invariant forall i | 0 <= i < index :: ValidOperationFiles(operations[i])
    {
      ok := ReadOperationFiles(operations[index]);
      if !ok { return; }
    }
    ok := true;
  }

  /** The loop over the operations: ordinals, binding and receipt chain. */
  method AdmitOperations(operations: seq<seq<OperationRecord>>, binding: Binding, cleanupTail: bool) returns (ok: bool)
    ensures ok <==> OperationChainAdmits(operations, binding, cleanupTail)
  {
    hide ValidOperationFiles;
    ok := ReadOperations(operations);
    if !ok { return; }
    assert forall i | 0 <= i < |operations| :: ValidOperationFiles(operations[i]) && operations[i] != [];
    var firstRemaining := if operations == [] then 1 else Current(operations[0]).plan.ordinal;
    for index := 0 to |operations|
      invariant forall i | 0 <= i < index :: OperationAdmits(operations, i, binding, cleanupTail)
    {
      var record := Current(operations[index]);
      if record.plan.ordinal != (if cleanupTail then firstRemaining + index else index + 1)
         || record.plan.binding != binding
         || (cleanupTail && record.phase != ReceiptInstalled)
      {
        assert !OperationAdmits(operations, index, binding, cleanupTail);
        return false;
      }
      if index == 0 {
        if record.plan.ordinal == 1 {
          if record.plan.previousReceipt.Some? {
            assert !OperationAdmits(operations, index, binding, cleanupTail);
            return false;
          }
        } else if !cleanupTail || record.plan.previousReceipt.None? {
          assert !OperationAdmits(operations, index, binding, cleanupTail);
          return false;
        }
      } else {
        var previous := Current(operations[index - 1]);
        var digest := if previous.receipt.None? then None else Some(ReceiptDigest(previous.receipt.value));
        CompletedHasReceipt(operations[index - 1]);
        if record.plan.previousReceipt != digest || previous.phase != ReceiptInstalled {
          assert !OperationAdmits(operations, index, binding, cleanupTail);
          return false;
        }
      }
    }
    ok := true;
  }

  lemma CompletedHasReceipt(files: seq<OperationRecord>)
    requires ValidOperationFiles(files)
    ensures Current(files).phase == ReceiptInstalled ==> Current(files).receipt.Some?
  {
    assert FollowsOn(files, |files| - 1);
  }

  // --------------------------------------------------------------------- the checkpoint

  method CountCompleted(operations: seq<seq<OperationRecord>>) returns (completed: nat)
    requires forall i | 0 <= i < |operations| :: operations[i] != []
    ensures completed == CompletedCount(operations)
  {
    completed := 0;
    while completed < |operations| && Current(operations[completed]).phase == ReceiptInstalled
      invariant completed <= |operations|
      invariant forall i | 0 <= i < completed :: Current(operations[i]).phase == ReceiptInstalled
    {
      completed := completed + 1;
    }
  }

  /** Before clean-up: at most one operation unfinished, and the tip counts all receipts but at most one. */
  method AdmitCheckpoint(operations: seq<seq<OperationRecord>>, tip: GroupRecord) returns (ok: bool)
    requires ReadableOperations(operations)
    ensures ok <==> CheckpointAdmits(operations, tip)
  {
    hide ValidOperationFiles;
    assert forall i | 0 <= i < |operations| :: ValidOperationFiles(operations[i]) && operations[i] != [];
    var completed := CountCompleted(operations);
    if |operations| - completed > 1 { return false; }
    if tip.count > completed || completed - tip.count > 1 { return false; }
    if tip.count == 0 {
      ok := tip.chainDigest == Sha256(EmptyChain(tip.binding));
    } else {
      var last := Current(operations[tip.count - 1]);
      ok := last.receipt.Some? && ReceiptDigest(last.receipt.value) == tip.chainDigest;
    }
  }

  /** During clean-up: what is left of the operations ends in the tip, and so does the command record. */
  method AdmitTail(dir: Directory, tip: GroupRecord) returns (ok: bool)
    requires ReadableOperations(dir.operations) && dir.commands != []
    ensures ok <==> TailAdmits(dir, tip)
  {
    hide ValidOperationFiles;
    assert forall i | 0 <= i < |dir.operations| :: ValidOperationFiles(dir.operations[i]) && dir.operations[i] != [];
    var command := dir.commands[|dir.commands| - 1];
    if command.count != tip.count || command.chainDigest != tip.chainDigest { return false; }
    if dir.operations == [] { return true; }
    if Current(dir.operations[0]).plan.ordinal > tip.count + 1 { return false; }
    var last := Current(dir.operations[|dir.operations| - 1]);
    ok := last.plan.ordinal == tip.count && last.receipt.Some? && ReceiptDigest(last.receipt.value) == tip.chainDigest;
  }

  // ------------------------------------------------------------------------- recovery

  /** What `recoverGreaterRealmCutoverOperationJournal` checks before it first writes, with a command group on file. */
  method AdmitRecovery(dir: Directory) returns (ok: bool)
    ensures ok <==> RecoveryAdmits(dir)
  {
    hide ValidGroupFiles, ValidCommandFiles, OperationChainAdmits, TailAdmits, CheckpointAdmits;
    ok := ReadGroupFiles(dir.groups);
    if !ok { return; }
    GroupsAreThere(dir.groups);
    var tip := dir.groups[|dir.groups| - 1];
    ok := ReadCommandFiles(dir.commands);
    if !ok { return; }
    if exists i | 0 <= i < |dir.commands| :: dir.commands[i].binding != tip.binding { return false; }
    var installed := dir.commands != [] && dir.commands[|dir.commands| - 1].phase == CommandInstalled;
    var cleanupTail := installed && tip.phase == CommandReconciled;
    ok := AdmitOperations(dir.operations, tip.binding, cleanupTail);
    if !ok { return; }
    AdmittedIsReadable(dir.operations, tip.binding, cleanupTail);
    if cleanupTail { ok := AdmitTail(dir, tip); } else { ok := AdmitCheckpoint(dir.operations, tip); }
  }

  lemma GroupsAreThere(files: seq<GroupRecord>)
    requires ValidGroupFiles(files)
    ensures files != []
  {
  }

  lemma AdmittedIsReadable(operations: seq<seq<OperationRecord>>, binding: Binding, tail: bool)
    requires OperationChainAdmits(operations, binding, tail)
    ensures ReadableOperations(operations)
  {
  }

  /** `inspectGreaterRealmCutoverOperatorJournalRecovery`: which recovery the directory asks for, if any. */
  method InspectRecovery(dir: Directory) returns (mode: RecoveryMode)
    ensures mode == InspectMode(dir)
  {
    hide ValidGroupFiles, ValidCommandFiles;
    if dir.groups == [] && dir.operations == [] && dir.commands == [] {
      return if dir.claims != 0 then Rejected else LockOnlyMode;
    }
    if dir.groups != [] {
      var ok := ReadGroupFiles(dir.groups);
      return if ok then JournalMode else Rejected;
    }
    if dir.operations != [] || |dir.commands| != 1 { return Rejected; }
    var ok := ReadCommandFiles(dir.commands);
    if !ok || dir.commands[0].phase != CommandInstalled { return Rejected; }
    // the receipt the record promises must be on file
    if dir.commands[0].installed != Some(ExpectedReceipt(dir.commands[0])) { return Rejected; }
    mode := if ExpectedReceipt(dir.commands[0]) in dir.receipts then CommandReceiptMode else Rejected;
  }
}
