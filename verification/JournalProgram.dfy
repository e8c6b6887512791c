/**
 The chain builder and the recovery procedure, as a process that may die between any two
 of its durable steps. Each durable step is a step of the transition system, and the run it
 belongs to is kept, so everything proved of runs holds of these methods at every point.
 */
module JournalProgram {
  import opened Wrappers
  import opened SnapshotRules
  import opened JournalRecords
  import opened JournalReaders
  import opened JournalLayout
  import opened JournalMachine
  import opened JournalSafety
  import opened ReceiptChain
  import opened JournalTheorems

  /** How a call ended: it returned, it threw, or its process died. */
  datatype Outcome = Returned | Threw | Died

  /** What is handed on of one operation when a recovered command gets its receipt. */
  datatype HandedOperation = HandedOperation(
    ordinal: nat, planDigest: Digest, operation: Operation, before: Snapshot, after: Snapshot, outcome: Evidence, receipt: Digest)

  /** All that `commandReceiptForRecoveredChain` is handed, to make the content of the receipt from. */
  datatype Handed = Handed(
    binding: Binding, before: Snapshot, after: Snapshot, operations: seq<HandedOperation>,
    chainDigest: Digest, count: nat, outcome: Option<Evidence>)

  /** What is to be handed over of a closed command: the receipt states of plan and terminal, and every operation. */
  function HandedOver(b: Binding, plan: CommandPlan, history: seq<Done>, terminal: Terminal): Handed {
    Handed(
      b, plan.receiptBefore, terminal.receiptAfter,
      seq(|history|, k requires 0 <= k < |history| => HandedAt(b, history, k)),
      ChainDigest(b, history), |history|,
      if history == [] then None else Some(history[|history| - 1].outcome))
  }

  function HandedAt(b: Binding, history: seq<Done>, k: nat): HandedOperation
    requires k < |history|
  {
    HandedOperation(
      k + 1, Sha256(PlanBody(PlanAfter(b, history[..k], history[k].draft))), history[k].draft.operation,
      history[k].draft.before, history[k].after, history[k].outcome, ReceiptDigest(ReceiptAt(b, history, k)))
  }

  /** One operation of a resumed driver, with what becomes of its request. */
  datatype Attempt = Attempt(journalId: nat, operation: Operation, expected: Predicate, reply: Option<Snapshot>, evidence: Evidence)

  /** What a driver does with a command that it is handed unfinished. */
  datatype Driver = Driver(attempts: seq<Attempt>, terminal: Terminal)

  /** The server as the driver finds it before attempt `i`, when those before it have landed. */
  function ServerAt(server: Snapshot, attempts: seq<Attempt>, i: nat): Snapshot
    requires i <= |attempts|
  {
    if i == 0 || attempts[i - 1].reply.None? then server else attempts[i - 1].reply.value
  }

  predicate Lands(server: Snapshot, attempt: Attempt) {
    attempt.reply.Some? && ExpectedAfterMatches(server, attempt.reply.value, attempt.expected)
  }

  predicate AllLand(server: Snapshot, attempts: seq<Attempt>, n: nat)
    requires n <= |attempts|
  {
    forall i | 0 <= i < n :: Lands(ServerAt(server, attempts, i), attempts[i])
  }

  function ResultOf(server: Snapshot, attempt: Attempt): Done {
    Done(Draft(attempt.journalId, attempt.operation, server, attempt.expected),
         if attempt.reply.Some? then attempt.reply.value else server, attempt.evidence)
  }

  /** The operations a driver adds to the history when all of them land. */
  function Results(server: Snapshot, attempts: seq<Attempt>, n: nat): (results: seq<Done>)
    requires n <= |attempts|
    ensures |results| == n
  {
    if n == 0 then [] else Results(server, attempts, n - 1) + [ResultOf(ServerAt(server, attempts, n - 1), attempts[n - 1])]
  }

  /** Every predicate rejects the unchanged snapshot, and every journal id is new. */
  ghost predicate Sound(attempts: seq<Attempt>, history: seq<Done>) {
    && (forall i, x: Snapshot | 0 <= i < |attempts| :: !ExpectedAfterMatches(x, x, attempts[i].expected))
    && (forall i, j | 0 <= i < j < |attempts| :: attempts[i].journalId != attempts[j].journalId)
    && (forall i, k | 0 <= i < |attempts| && 0 <= k < |history| :: history[k].draft.journalId != attempts[i].journalId)
  }

  // ------------------------------------------------- what the files show of a stage

  lemma IdleShows(s: State)
    requires Inv(s) && s.stage.Open? && s.stage.active.Idle?
    ensures AtRest(s.dir) && LastOf(s.dir.groups) == GroupTip(s.binding, s.stage.plan, s.stage.history)
    ensures |s.stage.history| <= MAX_OPERATION_RECEIPTS && s.stage.plan == LastOf(s.dir.groups).plan.value
  {
    hide RemoteInv, ReceiptsKept, IdsDistinct, GroupTip, DoneFiles;
  }

  lemma ActiveShows(s: State)
    requires Inv(s) && s.stage.Open? && !s.stage.active.Idle?
    ensures Accepting(s.dir) && HasOperation(s.dir) && |s.dir.operations| == LastOf(s.dir.groups).count + 1
    ensures LastOf(s.dir.groups) == GroupTip(s.binding, s.stage.plan, s.stage.history)
    ensures LastFiles(s.dir) == ActiveFiles(ActivePlan(s), s.stage.active)
    ensures PhaseOf(s.stage.active, LastRecord(s.dir).phase)
    ensures LastRecord(s.dir).plan == ActivePlan(s)
    ensures LastRecord(s.dir).journalId == DraftOf(s.stage.active).journalId
    ensures s.stage.active.Marked? ==> |LastFiles(s.dir)| == 2
    ensures s.stage.active.Settled? || s.stage.active.Receipted? ==>
              LastRecord(s.dir).receipt == Some(CompletionFor(ActivePlan(s), s.stage.active.done.after, s.stage.active.done.outcome))
  {
    hide RemoteInv, ReceiptsKept, IdsDistinct, GroupTip, DoneFiles, ActiveFiles, PlanAfter;
    ActiveFilesSay(ActivePlan(s), s.stage.active);
  }

  lemma IdsOnFile(s: State, id: nat)
    requires Inv(s) && s.stage.Open? && s.stage.active.Idle?
    requires forall k | 0 <= k < |s.stage.history| :: s.stage.history[k].draft.journalId != id
    ensures forall i | 0 <= i < |s.dir.operations| && s.dir.operations[i] != [] :: s.dir.operations[i][0].journalId != id
  {
    hide RemoteInv, ReceiptsKept, IdsDistinct, GroupTip, DoneFiles;
    forall i | 0 <= i < |s.dir.operations| ensures s.dir.operations[i][0].journalId != id {
      DoneFilesNamed(s.binding, s.stage.history, i);
    }
  }

  class Process {
    var world: State
    var steps: nat // durable steps left before this process dies

    // what `buildGreaterRealmCutoverOperationJournalChain` closes over
    var receiptCount: nat
    var receiptChainDigest: Digest
    var active: bool
    var permitPassed: bool
    var commandGroupCurrent: GroupRecord

    ghost var states: seq<State>
    ghost var labels: seq<Label>

    /** A live process at the end of a run. */
    ghost predicate Valid()
      reads this
    {
      IsRun(states, labels) && world == states[|labels|] && world.process.Live? && world.dir.lock
    }

    /** The process knows what the directory says of the command. */
    ghost predicate Knows()
      reads this
    {
      && world.process.Live? && world.dir.groups != []
      && commandGroupCurrent == LastOf(world.dir.groups)
      && receiptCount == commandGroupCurrent.count
      && receiptChainDigest == commandGroupCurrent.chainDigest
      && (active <==> world.stage.Open? && !world.stage.active.Idle?)
      && (active ==> world.process.operation == Some(DraftOf(world.stage.active).journalId))
      && permitPassed == world.process.sent
    }

    /** The same process is at work on the same command. */
    ghost predicate SameCommand(was: State)
      reads this
    {
      && world.binding == was.binding && world.dir.claims == was.dir.claims
      && world.process.Live? && was.process.Live? && world.process.recovering == was.process.recovering
    }

    ghost predicate Ran(was: seq<Label>)
      reads this
    {
      IsRun(states, labels) && world == states[|labels|] && was <= labels
    }

    lemma Safe()
      requires IsRun(states, labels) && world == states[|labels|]
      ensures Inv(world)
    {
      hide Inv, IsRun;
      RunsEnd(states, labels);
      EveryRunIsSafe(states, labels, |labels|);
    }

    /** An operator that has just taken the lock, and will live for `steps` durable steps. */
    constructor (start: State, steps: nat)
      requires Init(start)
      ensures Valid() && world == start && labels == [] && this.steps == steps
      ensures receiptCount == 0 && receiptChainDigest == Sha256(EmptyChain(start.binding)) && !active && !permitPassed
      ensures commandGroupCurrent == StartedRecord(start.binding)
    {
      world, this.steps, states, labels := start, steps, [start], [];
      receiptCount, receiptChainDigest, active, permitPassed := 0, Sha256(EmptyChain(start.binding)), false, false;
      commandGroupCurrent := StartedRecord(start.binding);
    }

    /** One durable step, or death before it. */
    method Durable(l: Label) returns (outcome: Outcome)
      requires Valid() && Enabled(world, l)
      modifies this`world, this`steps, this`states, this`labels
      ensures Ran(old(labels))
      ensures outcome.Returned? || outcome.Died?
      ensures outcome.Returned? ==> world == Next(old(world), l) && Inv(world) && steps + 1 == old(steps)
      ensures outcome.Died? ==> old(steps) == steps == 0 && world == old(world).(process := Dead)
    {
      hide Init, Inv, Enabled, Next;
      CrashStep(world);
      var step := if steps == 0 then Crash else l;
      outcome := if steps == 0 then Died else Returned;
      steps := if steps == 0 then 0 else steps - 1;
      world := Next(world, step);
      RunGrows(states, labels, step);
      states, labels := states + [world], labels + [step];
      Safe();
    }

    /** Opens a command and binds its plan. */
    method Begin(plan: CommandPlan) returns (outcome: Outcome)
      requires Valid() && world.stage.Fresh? && !HasWal(world.dir) && !world.process.recovering && world.process.operation == None
      modifies this
      ensures Ran(old(labels)) && !outcome.Threw?
      ensures outcome.Returned? ==> Valid() && Knows() && !active && world.stage == Open(plan, [], Idle)
    {
      hide Inv, IsRun, Init, ExpectedAfterMatches, AdvanceGroup, GroupTip, Plans, Pinned, ExpectedReceipt, CleaningUp, ActivePhase, DropFirstFile, Advance;
      outcome := Durable(Start);
      if outcome.Died? { return; }
      BegunShows(world);
      outcome := Durable(Bind(plan));
      if outcome.Died? { return; }
      IdleShows(world);
      commandGroupCurrent := LastOf(world.dir.groups);
      receiptCount, receiptChainDigest := commandGroupCurrent.count, commandGroupCurrent.chainDigest;
      active, permitPassed := false, world.process.sent;
    }

    /** `prepare` */
    method Prepare(draft: Draft) returns (outcome: Outcome)
      requires Valid() && Knows()
      requires draft.before == world.server && !ExpectedAfterMatches(draft.before, draft.before, draft.expected)
      requires forall k | 0 <= k < |History(world.stage)| :: History(world.stage)[k].draft.journalId != draft.journalId
      modifies this
      ensures Ran(old(labels))
      ensures outcome.Threw? <==>
                || old(active) || old(receiptCount) >= MAX_OPERATION_RECEIPTS
                || old(commandGroupCurrent).phase !in {Planned, OperationCheckpoint}
      ensures outcome.Threw? ==> world == old(world) && Knows()
      ensures Took(outcome, old(steps), 1)
      ensures outcome.Returned? ==>
                && Valid() && Knows() && SameCommand(old(world)) && active && old(world).stage.Open? && !permitPassed
                && world.stage == old(world).stage.(active := Drafted(draft))
                && world.server == old(world).server
    {
      hide Inv, IsRun, ExpectedAfterMatches, Advance, GroupTip, Init;
      Safe();
      if active || receiptCount >= MAX_OPERATION_RECEIPTS || commandGroupCurrent.phase !in {Planned, OperationCheckpoint} {
        return Threw;
      }
      OpenByTip(world);
      IdleShows(world);
      assert History(world.stage) == world.stage.history;
      IdsOnFile(world, draft.journalId);
      outcome := Durable(JournalMachine.Prepare(draft));
      if outcome.Died? { return; }
      ActiveShows(world);
      active, permitPassed := true, false;
    }

    /** `markSubmissionUncertain` */
    method MarkSubmissionUncertain() returns (outcome: Outcome)
      requires Valid() && Knows()
      modifies this
      ensures Ran(old(labels))
      ensures outcome.Threw? <==> !(old(active) && old(world).stage.active.Drafted?)
      ensures outcome.Threw? ==> world == old(world) && Knows()
      ensures Took(outcome, old(steps), 1)
      ensures outcome.Returned? ==>
                && Valid() && Knows() && SameCommand(old(world)) && active && permitPassed == old(permitPassed)
                && world.stage == old(world).stage.(active := Marked(old(world).stage.active.draft))
                && world.server == old(world).server && world.effects == old(world).effects
    {
      hide Inv, IsRun, ExpectedAfterMatches, Advance, GroupTip, Init, ActiveFiles;
      Safe();
      if active { ActiveShows(world); }
      if !active || LastRecord(world.dir).phase != Prepared { return Threw; }
      outcome := Durable(MarkUncertain);
    }

    /** The write permit, the request and what the world makes of it: executed to whatever effect, or lost. */
    method SubmitAndWait(reply: Option<Snapshot>) returns (outcome: Outcome)
      requires Valid() && Knows() && active && world.stage.active.Marked? && !permitPassed
      modifies this
      ensures Ran(old(labels)) && !outcome.Threw?
      ensures Took(outcome, old(steps), 2)
      ensures outcome.Returned? ==>
                && Valid() && Knows() && SameCommand(old(world)) && active && permitPassed && world.stage == old(world).stage
                && (reply.Some? ==> world.server == reply.value)
                && (reply.None? ==> world.server == old(world).server)
    {
      hide Inv, IsRun, ExpectedAfterMatches, Advance, GroupTip, Init, ActiveFiles;
      Safe();
      ActiveShows(world);
      UnsentShows(world);
      outcome := Durable(Submit);
      if outcome.Died? { return; }
      permitPassed := true;
      ActiveShows(world);
      outcome := Durable(if reply.Some? && reply.value != world.server then Execute(reply.value) else Lose);
    }

    /** `reconcile`: the phase, the receipt, the second phase and the checkpoint, in this order. */
    method Reconcile(result: Evidence) returns (outcome: Outcome)
      requires Valid() && Knows()
      modifies this
      ensures Ran(old(labels))
      ensures outcome.Threw? <==>
                !(&& old(active) && old(world).stage.active.Marked? && old(permitPassed)
                  && var draft := old(world).stage.active.draft;
                     ExpectedAfterMatches(draft.before, old(world).server, draft.expected))
      ensures outcome.Threw? ==> world == old(world) && Knows()
      ensures Took(outcome, old(steps), 4)
      ensures outcome.Returned? ==> SameCommand(old(world))
      ensures outcome.Returned? ==>
                var done := Done(old(world).stage.active.draft, old(world).server, result);
                && Valid() && Knows() && !active
                && world.stage == Open(old(world).stage.plan, old(world).stage.history + [done], Idle)
                && receiptCount == old(receiptCount) + 1
                && world.server == old(world).server && world.effects == old(world).effects
    {
      hide Inv, IsRun, ExpectedAfterMatches, Advance, GroupTip, Init, ActiveFiles, AdvanceGroup, CompletionFor;
      Safe();
      if active { ActiveShows(world); }
      if !active || !permitPassed || LastRecord(world.dir).phase != SubmissionUncertain
         || !ExpectedAfterMatches(LastRecord(world.dir).plan.before, world.server, LastRecord(world.dir).plan.expected)
      {
        return Threw;
      }
      SettlingIsMarked(world);
      outcome := Durable(Settle(result));
      if outcome.Died? { return; }
      outcome := Complete();
    }

    /** From a reconciled record on: receipt, receipt-installed phase, checkpoint. */
    method Complete() returns (outcome: Outcome)
      requires Valid() && Inv(world) && world.stage.Open? && world.stage.active.Settled?
      modifies this`world, this`steps, this`states, this`labels, this`receiptCount, this`receiptChainDigest, this`active, this`commandGroupCurrent
      ensures Ran(old(labels)) && !outcome.Threw?
      ensures Took(outcome, old(steps), 3)
      ensures outcome.Returned? ==>
                && Valid() && CheckpointedFrom(old(world))
    {
      hide Inv, IsRun, ExpectedAfterMatches, Advance, GroupTip, Init, ActiveFiles, CompletionFor;
      ActiveShows(world);
      outcome := Durable(InstallCompletion);
      if outcome.Died? { return; }
      ActiveShows(world);
      outcome := Durable(InstallReceiptPhase);
      if outcome.Died? { return; }
      outcome := InstallCheckpoint();
    }

    /** The history has grown by the operation that was settled, and the process knows. */
    ghost predicate CheckpointedFrom(was: State)
      requires was.stage.Open? && (was.stage.active.Settled? || was.stage.active.Receipted?)
      reads this
    {
      && Inv(world)
      && world.stage == Open(was.stage.plan, was.stage.history + [was.stage.active.done], Idle)
      && world.process == was.process && world.inflight == was.inflight
      && world.server == was.server && world.effects == was.effects && world.binding == was.binding
      && world.dir.claims == was.dir.claims && world.dir.groups != [] && commandGroupCurrent == LastOf(world.dir.groups)
      && receiptCount == |world.stage.history| && receiptChainDigest == commandGroupCurrent.chainDigest
      && commandGroupCurrent.count == receiptCount && !active
    }

    method InstallCheckpoint() returns (outcome: Outcome)
      requires Valid() && Inv(world) && world.stage.Open? && world.stage.active.Receipted?
      modifies this`world, this`steps, this`states, this`labels, this`receiptCount, this`receiptChainDigest, this`active, this`commandGroupCurrent
      ensures Ran(old(labels)) && !outcome.Threw?
      ensures Took(outcome, old(steps), 1)
      ensures outcome.Returned? ==> Valid() && CheckpointedFrom(old(world))
    {
      hide Inv, IsRun, ExpectedAfterMatches, AdvanceGroup, GroupTip, Init, ActiveFiles, CompletionFor;
      ActiveShows(world);
      outcome := Durable(Checkpoint);
      if outcome.Died? { return; }
      IdleShows(world);
      commandGroupCurrent := LastOf(world.dir.groups);
      receiptCount, receiptChainDigest, active := commandGroupCurrent.count, commandGroupCurrent.chainDigest, false;
    }

    /** `reconcileCommand` */
    method ReconcileCommand(terminal: Terminal) returns (outcome: Outcome)
      requires Valid() && Knows()
      modifies this
      ensures Ran(old(labels))
      ensures Took(outcome, old(steps), 1)
      ensures outcome.Threw? <==>
                !(&& !old(active) && old(world).stage.Open?
                  && ExpectedAfterMatches(old(world).stage.plan.before, terminal.after, old(world).stage.plan.expected))
      ensures outcome.Threw? ==> world == old(world) && Knows()
      ensures outcome.Returned? ==>
                && Valid() && Knows() && SameCommand(old(world)) && world.effects == old(world).effects
                && world.stage == Closed(old(world).stage.plan, old(world).stage.history, terminal, None)
    {
      hide Inv, IsRun, ExpectedAfterMatches, AdvanceGroup, GroupTip, Init, ActiveFiles;
      Safe();
      if active || commandGroupCurrent.phase !in {Planned, OperationCheckpoint} {
        if world.stage.Open? && !active { IdleShows(world); }
        return Threw;
      }
      OpenByTip(world);
      IdleShows(world);
      if !ExpectedAfterMatches(commandGroupCurrent.plan.value.before, terminal.after, commandGroupCurrent.plan.value.expected) {
        return Threw;
      }
      outcome := Durable(CloseCommand(terminal));
      if outcome.Died? { return; }
      ClosedShows(world);
      commandGroupCurrent := LastOf(world.dir.groups);
    }

    /** `prepareCommandReceipt`: a receipt is prepared once, and never replaced. */
    method PrepareCommandReceipt(content: nat) returns (outcome: Outcome)
      requires Valid() && Knows()
      modifies this
      ensures Ran(old(labels))
      ensures Took(outcome, old(steps), 1)
      ensures outcome.Threw? <==> !(old(world).stage.Closed? && old(world).stage.receipt.None?)
      ensures outcome.Threw? ==> world == old(world) && Knows()
      ensures outcome.Returned? ==> Valid() && Knows() && world.stage == old(world).stage.(receipt := Some(content))
    {
      hide Inv, IsRun, ExpectedAfterMatches, GroupTip, Init;
      Safe();
      TipPhases(world);
      if active || world.dir.commands != [] || commandGroupCurrent.phase != CommandReconciled { return Threw; }
      outcome := Durable(PrepareCommand(content));
    }

    /** Installs the prepared receipt itself, and then the record that it is installed. */
    method InstallReceipt() returns (outcome: Outcome)
      requires Valid() && Inv(world) && world.stage.Closed? && world.stage.receipt.Some?
      modifies this`world, this`steps, this`states, this`labels
      ensures Ran(old(labels)) && !outcome.Threw?
      ensures Took(outcome, old(steps), 2)
      ensures outcome.Returned? ==>
                && Valid() && Inv(world)
                && world.process == old(world).process && world.binding == old(world).binding
                && world.dir.claims == old(world).dir.claims && world.effects == old(world).effects
                && world.dir.groups == old(world).dir.groups
                && world.stage == Tail(old(world).stage.plan, old(world).stage.history, old(world).stage.terminal,
                                       old(world).stage.receipt.value, 0, 0, 0, true)
    {
      hide Inv, IsRun, ExpectedAfterMatches, GroupTip, Init, ExpectedReceipt;
      ClosedShows(world);
      TipPhases(world);
      outcome := Durable(InstallCommandReceipt);
      if outcome.Died? { return; }
      TipPhases(world);
      outcome := Durable(FinishCommand);
    }

    /** `removeJournalFiles`: operations oldest first, and of each operation the oldest phase first. */
    method RemoveOperations() returns (outcome: Outcome)
      requires Valid() && Inv(world) && world.stage.Tail?
      modifies this`world, this`steps, this`states, this`labels
      ensures Ran(old(labels)) && !outcome.Threw?
      ensures Took(outcome, old(steps), 4 * |old(world).dir.operations|)
      ensures outcome.Returned? ==>
                Valid() && Inv(world) && SameTail(old(world)) && world.dir.groups == old(world).dir.groups && world.dir.operations == []
    {
      hide Inv, IsRun, ExpectedAfterMatches, GroupTip, Init, DropFirstFile;
      TailShows(world);
      while world.dir.operations != []
        invariant Ran(old(labels)) && Valid() && Inv(world) && SameTail(old(world)) && world.dir.groups == old(world).dir.groups
        invariant steps <= old(steps) <= steps + 4 * |old(world).dir.operations| - FilesLeft()
        decreases FilesLeft()
      {
        TailShows(world);
        outcome := Durable(DropOperation);
        if outcome.Died? { return; }
        TailShows(world);
      }
      TailShows(world);
      outcome := Returned;
    }

    method RemoveGroups() returns (outcome: Outcome)
      requires Valid() && Inv(world) && world.stage.Tail? && world.dir.operations == [] && world.dir.groups != []
      modifies this`world, this`steps, this`states, this`labels
      ensures Ran(old(labels)) && !outcome.Threw?
      ensures Took(outcome, old(steps), |old(world).dir.groups| - 1)
      ensures outcome.Returned? ==>
                && Valid() && Inv(world) && SameTail(old(world)) && world.dir.commands == old(world).dir.commands
                && world.dir.operations == [] && |world.dir.groups| == 1
    {
      hide Inv, IsRun, ExpectedAfterMatches, GroupTip, Init, DropFirstFile;
      while |world.dir.groups| > 1
        invariant Ran(old(labels)) && Valid() && Inv(world) && SameTail(old(world))
        invariant world.dir.groups != [] && world.dir.operations == [] && world.dir.commands == old(world).dir.commands
        invariant old(steps) - steps == |old(world).dir.groups| - |world.dir.groups|
        decreases |world.dir.groups|
      {
        TailShows(world);
        outcome := Durable(DropGroup);
        if outcome.Died? { return; }
      }
      outcome := Returned;
    }

    method RemovePrepared() returns (outcome: Outcome)
      requires Valid() && Inv(world) && world.stage.Tail? && world.dir.operations == []
      modifies this`world, this`steps, this`states, this`labels
      ensures Ran(old(labels)) && !outcome.Threw?
      ensures Took(outcome, old(steps), 1)
      ensures outcome.Returned? ==>
                && Valid() && Inv(world) && SameTail(old(world)) && world.dir.groups == old(world).dir.groups
                && world.dir.operations == [] && |world.dir.commands| == 1
    {
      hide Inv, IsRun, ExpectedAfterMatches, GroupTip, Init, DropFirstFile;
      TailShows(world);
      outcome := Returned;
      if |world.dir.commands| == 2 {
        outcome := Durable(DropPrepared);
        if outcome.Died? { return; }
        TailShows(world);
      }
    }

    /** The call took at most `most` durable steps, and died only for want of them. */
    ghost predicate Took(outcome: Outcome, budget: nat, most: int)
      reads this
    {
      if outcome.Died? then budget < most else steps <= budget <= steps + most
    }

    ghost function FilesLeft(): int
      reads this
    {
      if !world.stage.Tail? then 0 else 4 * |world.dir.operations| - world.stage.file
    }

    ghost predicate SameTail(was: State)
      requires was.stage.Tail?
      reads this
    {
      && world.stage.Tail? && world.stage.history == was.stage.history && world.stage.content == was.stage.content
      && world.process == was.process && world.binding == was.binding
      && world.dir.claims == was.dir.claims && world.effects == was.effects
    }

    /** What the artifact cleanup is handed: every operation of the command, whatever is left of the journals. */
    method CleanupContext() returns (operations: seq<CompletionReceipt>)
      requires Inv(world) && world.stage.Tail? && world.dir.groups != []
      ensures operations == Receipts(world.binding, world.stage.history) && ListsOnce(operations, world.effects, world.stage.history)
    {
      hide Inv, IsContext, GroupTip, ChainDigest, ListsOnce;
      TailShows(world);
      TipPhases(world);
      var tip := LastOf(world.dir.groups);
      var context := FullArtifactCleanupContext(world.dir, world.binding, tip.chainDigest, tip.count);
      CleanupSeesEveryOperation(world, Receipts(world.binding, world.stage.history));
      assert context.Some?;
      CleanupSeesEveryOperation(world, context.value);
      operations := context.value;
    }

    /** `completeCommandReceipt`, from the installed receipt to the last journal file. */
    method CompleteCommandReceipt() returns (outcome: Outcome, operations: Option<seq<CompletionReceipt>>)
      requires Valid() && Knows() && !world.process.recovering
      modifies this`world, this`steps, this`states, this`labels
      ensures Ran(old(labels))
      ensures outcome.Threw? <==> !(old(world).stage.Closed? && old(world).stage.receipt.Some?)
      ensures outcome.Threw? ==> world == old(world)
      ensures outcome.Returned? ==>
                && Valid() && !HasWal(world.dir)
                && world.stage == Finished(old(world).stage.history, Pinned(old(world).binding, old(world).stage))
                && world.stage.result.Some? && world.stage.result.value in world.dir.receipts
                && world.effects == old(world).effects
                && operations == if world.binding.artifact.None? then None
                                 else Some(Receipts(world.binding, world.stage.history))
    {
      hide Inv, IsRun, ExpectedAfterMatches, GroupTip, Init, ExpectedReceipt, ListsOnce, Receipts, Pinned;
      operations := None;
      Safe();
      OneCommandLeft(world);
      if !(|world.dir.commands| == 1 && world.dir.commands[0].phase == CommandPrepared) { return Threw, None; }
      ghost var pinned := Pinned(world.binding, world.stage);
      PinnedStep(world);
      outcome := InstallReceipt();
      if outcome.Died? { return; }
      if world.binding.artifact.Some? {
        var handed := CleanupContext();
        operations := Some(handed);
      }
      outcome := RemoveOperations();
      if outcome.Died? { return; }
      outcome := RemovePrepared();
      if outcome.Died? { return; }
      outcome := RemoveGroups();
      if outcome.Died? { return; }
      assert Pinned(world.binding, world.stage) == pinned;
      outcome := RemoveAuthorities();
    }

    /** The terminal command group first, then the installed command record. */
    method RemoveAuthorities() returns (outcome: Outcome)
      requires Valid() && Inv(world) && world.stage.Tail? && world.dir.claims == 0
      requires world.dir.operations == [] && |world.dir.groups| <= 1 && |world.dir.commands| == 1
      modifies this`world, this`steps, this`states, this`labels
      ensures Ran(old(labels)) && !outcome.Threw?
      ensures Took(outcome, old(steps), 2)
      ensures outcome.Returned? ==>
                && Valid() && Inv(world) && !HasWal(world.dir) && world.dir.claims == 0
                && world.stage == Finished(old(world).stage.history, Pinned(old(world).binding, old(world).stage))
                && world.stage.result.Some? && world.stage.result.value in world.dir.receipts
                && world.process == old(world).process && world.effects == old(world).effects
                && world.binding == old(world).binding
    {
      hide Inv, IsRun, ExpectedAfterMatches, GroupTip, Init, ExpectedReceipt;
      TailShows(world);
      if world.dir.groups != [] {
        outcome := Durable(DropTerminalGroup);
        if outcome.Died? { return; }
        TailShows(world);
      }
      PinnedShows(world);
      outcome := Durable(DropTerminalCommand);
    }

    // ------------------------------------------------------------------- recovery

    /** The first part of recovery: the operation the dead process left unfinished. */
    method RecoverActive() returns (outcome: Outcome)
      requires Valid() && Inv(world) && FreshlyRecovering() && world.stage.Open?
      modifies this`world, this`steps, this`states, this`labels, this`receiptCount, this`receiptChainDigest, this`active, this`commandGroupCurrent
      ensures Ran(old(labels))
      ensures Took(outcome, old(steps), 4)
      ensures outcome.Threw? <==> old(world).stage.active.Stuck? || Mismatched(old(world))
      ensures outcome.Threw? ==> world == old(world)
      ensures outcome.Returned? ==>
                && Valid() && Inv(world) && FreshlyRecovering() && world.stage.Open? && world.stage.active.Idle?
                && world.stage.plan == old(world).stage.plan && world.effects == old(world).effects
                && world.server == old(world).server
                && world.dir.claims == old(world).dir.claims && world.binding == old(world).binding
                && world.stage.history == RecoveredHistory(old(world))
    {
      hide Inv, IsRun, ExpectedAfterMatches, GroupTip, Init, ActiveFiles, CompletionFor, Advance, AdvanceGroup, DropFirstFile;
      outcome := Returned;
      if |world.dir.operations| == LastCount(world) { RestingIsIdle(world); return; }
      RestingIsIdle(world);
      ActiveShows(world);
      match LastRecord(world.dir).phase
      case ReceiptInstalled => outcome := InstallCheckpoint();
      case Reconciled => outcome := Complete();
      case ManualAmbiguity => return Threw;
      case Prepared => outcome := ClearOrSettle();
      case SubmissionUncertain => outcome := ClearOrSettle();
    }

    ghost predicate FreshlyRecovering()
      reads this
    {
      world.process == Live(true, None, false) && world.inflight == None
    }

    /** The unfinished operation is cleared if the server never executed it, and settled if it did as expected. */
    method ClearOrSettle() returns (outcome: Outcome)
      requires Valid() && Inv(world) && FreshlyRecovering() && world.stage.Open?
      requires ClearedFrom(world.stage.active)
      modifies this`world, this`steps, this`states, this`labels, this`receiptCount, this`receiptChainDigest, this`active, this`commandGroupCurrent
      ensures Ran(old(labels))
      ensures Took(outcome, old(steps), 4)
      ensures outcome.Threw? <==> Mismatched(old(world))
      ensures outcome.Threw? ==> world == old(world)
      ensures outcome.Returned? ==>
                && Valid() && Inv(world) && FreshlyRecovering() && world.stage.Open? && world.stage.active.Idle?
                && world.stage.plan == old(world).stage.plan && world.effects == old(world).effects
                && world.server == old(world).server
                && world.dir.claims == old(world).dir.claims && world.binding == old(world).binding
                && world.stage.history == RecoveredHistory(old(world))
    {
      hide Inv, IsRun, ExpectedAfterMatches, GroupTip, Init, ActiveFiles, CompletionFor, Advance, AdvanceGroup, DropFirstFile;
      ActiveShows(world);
      ServerShows(world);
      if world.server == LastRecord(world.dir).plan.before {
        outcome := Durable(Clear);
        if outcome.Died? || world.stage.active.Idle? { return; }
        ActiveShows(world);
        outcome := Durable(Clear);
      } else if LastRecord(world.dir).phase != SubmissionUncertain
                || !ExpectedAfterMatches(LastRecord(world.dir).plan.before, world.server, LastRecord(world.dir).plan.expected)
      {
        return Threw;
      } else {
        outcome := Durable(Settle(RecoveredAfterOwnerDeath));
        if outcome.Died? { return; }
        outcome := Complete();
      }
    }

    /** Claims go first, newest first; then `release` takes the lock once no journal file is left. */
    method DisposeOwnership() returns (outcome: Outcome)
      requires Valid() && Inv(world) && world.process.recovering
      modifies this`world, this`steps, this`states, this`labels
      ensures Ran(old(labels)) && !outcome.Threw?
      ensures Took(outcome, old(steps), old(world).dir.claims)
      ensures outcome.Returned? ==>
                Valid() && Inv(world) && world == old(world).(dir := old(world).dir.(claims := 0))
    {
      hide Inv, IsRun, Init;
      while world.dir.claims > 0
        invariant Ran(old(labels)) && Valid() && Inv(world)
        invariant world == old(world).(dir := old(world).dir.(claims := world.dir.claims))
        invariant old(steps) - steps == old(world).dir.claims - world.dir.claims
        decreases world.dir.claims
      {
        outcome := Durable(Dispose);
        if outcome.Died? { return; }
      }
      outcome := Returned;
    }

    /** The end of every recovery: no journal file, no lock, and the stage `end`, its receipt on file. */
    ghost predicate RecoveredTo(end: Stage)
      reads this
    {
      && Inv(world) && !HasWal(world.dir) && !world.dir.lock && world.stage == end
      && (end.Finished? && end.result.Some? ==> end.result.value in world.dir.receipts)
    }

    /** The clean-up of a retained artifact is handed every operation of the command, if there is anything left to remove. */
    ghost predicate CleanedUp(was: State, removing: bool, cleaned: Option<seq<CompletionReceipt>>)
      reads this
    {
      cleaned == if was.binding.artifact.Some? && removing then Some(Receipts(was.binding, History(world.stage))) else None
    }

    /** The artifact clean-up is handed its context, and then everything goes but the two authorities. */
    method RemoveNonterminal() returns (outcome: Outcome, cleaned: Option<seq<CompletionReceipt>>)
      requires Valid() && Inv(world) && world.stage.Tail? && world.dir.groups != []
      modifies this`world, this`steps, this`states, this`labels
      ensures Ran(old(labels)) && !outcome.Threw?
      ensures Took(outcome, old(steps), 4 * |old(world).dir.operations| + |old(world).dir.groups|)
      ensures outcome.Returned? ==>
                && Valid() && Inv(world) && SameTail(old(world))
                && world.dir.operations == [] && |world.dir.groups| == 1 && |world.dir.commands| == 1
      ensures outcome.Returned? ==> CleanedUp(old(world), true, cleaned)
    {
      hide Inv, IsRun, Init, Receipts;
      cleaned := None;
      if world.binding.artifact.Some? {
        var handed := CleanupContext();
        cleaned := Some(handed);
      }
      outcome := RemoveOperations();
      if outcome.Died? { return; }
      outcome := RemoveGroups();
      if outcome.Died? { return; }
      outcome := RemovePrepared();
    }

    method FinishRemoval(ghost receiptFor: Handed -> nat) returns (outcome: Outcome, cleaned: Option<seq<CompletionReceipt>>)
      requires Valid() && Inv(world) && world.process.recovering && world.stage.Tail?
      modifies this`world, this`steps, this`states, this`labels
      ensures Ran(old(labels)) && !outcome.Threw?
      ensures Took(outcome, old(steps), 4 * |old(world).dir.operations| + |old(world).dir.groups| + old(world).dir.claims + 4)
      ensures outcome.Returned? ==> RecoveredTo(EndOf(old(world), receiptFor))
      ensures outcome.Returned? ==> CleanedUp(old(world), old(world).dir.groups != [], cleaned)
    {
      hide Inv, IsRun, ExpectedAfterMatches, GroupTip, Init, ExpectedReceipt, Receipts, ClosedGroups, OpenGroups, DoneOperations;
      TailShows(world);
      NoGroupsMeansReceiptOnly(world);
      outcome, cleaned := Returned, None;
      if world.dir.groups != [] {
        outcome, cleaned := RemoveNonterminal();
        if outcome.Died? { return; }
      }
      assert Pinned(world.binding, world.stage) == Pinned(old(world).binding, old(world).stage);
      outcome := FinishAuthorities();
    }

    /** The last removals: the recovery claims, the two authorities, the lock. */
    method FinishAuthorities() returns (outcome: Outcome)
      requires Valid() && Inv(world) && world.process.recovering && world.stage.Tail?
      requires world.dir.operations == [] && |world.dir.groups| <= 1 && |world.dir.commands| == 1
      modifies this`world, this`steps, this`states, this`labels
      ensures Ran(old(labels)) && !outcome.Threw?
      ensures Took(outcome, old(steps), old(world).dir.claims + 3)
      ensures outcome.Returned? ==> RecoveredTo(Finished(old(world).stage.history, Pinned(old(world).binding, old(world).stage)))
      ensures outcome.Returned? ==> world.stage.result.Some?
    {
      hide Inv, IsRun, ExpectedAfterMatches, GroupTip, Init, ExpectedReceipt;
      outcome := DisposeOwnership();
      if outcome.Died? { return; }
      outcome := RemoveAuthorities();
      if outcome.Died? { return; }
      outcome := Durable(ReleaseLock);
    }

    /** Reads off the journal files what the receipt of a recovered command is made from. */
    method HandOver() returns (handed: Handed)
      requires Inv(world) && world.stage.Closed?
      ensures handed == HandedOver(world.binding, world.stage.plan, world.stage.history, world.stage.terminal)
    {
      hide Inv, HandedAt, GroupTip, ReceiptAt, ChainDigest;
      ClosedShows(world);
      var tip := LastOf(world.dir.groups);
      var operations: seq<HandedOperation> := [];
      for i := 0 to |world.dir.operations|
        invariant |operations| == i
        invariant forall k | 0 <= k < i :: operations[k] == HandedAt(world.binding, world.stage.history, k)
      {
        OperationShows(world, i);
        var record := Current(world.dir.operations[i]);
        operations := operations + [HandedOperation(
          record.plan.ordinal, Sha256(PlanBody(record.plan)), record.plan.operation, record.plan.before,
          record.after.value, record.outcome.value, ReceiptDigest(record.receipt.value))];
      }
      var last := None;
      if world.dir.operations != [] {
        OperationShows(world, |world.dir.operations| - 1);
        last := Current(world.dir.operations[|world.dir.operations| - 1]).outcome;
      }
      handed := Handed(tip.binding, tip.plan.value.receiptBefore, tip.terminal.value.receiptAfter, operations,
                       tip.chainDigest, tip.count, last);
      assert operations == HandedOver(world.binding, world.stage.plan, world.stage.history, world.stage.terminal).operations;
    }

    /** From a reconciled command on: one receipt, prepared at most once, then the removals. */
    method FinishCommandReceipt(receiptFor: Handed -> nat) returns (outcome: Outcome, cleaned: Option<seq<CompletionReceipt>>)
      requires Valid() && Inv(world) && world.process.recovering && world.stage.Closed?
      modifies this`world, this`steps, this`states, this`labels
      ensures Ran(old(labels)) && !outcome.Threw?
      ensures Took(outcome, old(steps), 5 * |old(world).stage.history| + old(world).dir.claims + 10)
      ensures outcome.Returned? ==> RecoveredTo(EndOf(old(world), receiptFor))
      ensures outcome.Returned? ==> CleanedUp(old(world), true, cleaned)
    {
      hide Inv, IsRun, ExpectedAfterMatches, GroupTip, Init, ExpectedReceipt, Receipts;
      cleaned := None;
      ClosedShows(world);
      TipPhases(world);
      if world.dir.commands == [] {
        var handed := HandOver();
        outcome := Durable(PrepareCommand(receiptFor(handed)));
        if outcome.Died? { return; }
      }
      PinnedStep(world);
      outcome := InstallReceipt();
      if outcome.Died? { return; }
      TailSizes(world);
      outcome, cleaned := FinishRemoval(receiptFor);
    }

    /** `recoverGreaterRealmCutoverOperationJournal`, in whichever mode the directory asks for. */
    method Recover(inspected: Option<Terminal>, driver: Option<Driver>, receiptFor: Handed -> nat)
      returns (outcome: Outcome, cleaned: Option<seq<CompletionReceipt>>)
      requires Valid() && Inv(world) && FreshlyRecovering()
      requires driver.Some? && world.stage.Open? ==> Sound(driver.value.attempts, RecoveredHistory(world))
      modifies this
      ensures Ran(old(labels))
      ensures Took(outcome, old(steps), 5 * |History(old(world).stage)| + 13 * AttemptsOf(driver) + old(world).dir.claims + 30)
      ensures outcome.Died? || (outcome.Threw? <==> Blocked(old(world), inspected, driver))
      ensures outcome.Threw? ==> StoppedFrom(old(world), driver)
      ensures outcome.Returned? ==> RecoveredTo(FinalStage(old(world), inspected, driver, receiptFor))
      ensures outcome.Returned? ==> world.effects == Plans(world.binding, History(world.stage))
      ensures outcome.Returned? ==> CleanedUp(old(world), old(world).dir.groups != [] && !old(world).stage.Begun?, cleaned)
    {
      hide Inv, IsRun, ExpectedAfterMatches, GroupTip, Init, ExpectedReceipt, Advance, AdvanceGroup, RecoveryAdmits, InspectMode, Sound, Plans, ClosingBy, RecoveredHistory, DriverCloses, Receipts, DoneOperations, OpenGroups, ClosedGroups;
      cleaned := None;
      ReachableMode(world);
      ModeShows(world);
      var mode := InspectRecovery(world.dir);
      assert mode != Rejected;
      if mode == LockOnlyMode {
        PinnedShows(world);
        outcome := Durable(ReleaseLock);
      } else if mode == CommandReceiptMode {
        TailSizes(world);
        outcome, cleaned := FinishRemoval(receiptFor);
      } else {
        var admitted := AdmitRecovery(world.dir);
        assert admitted;
        var tip := world.dir.groups[|world.dir.groups| - 1];
        var commandAlreadyInstalled := world.dir.commands != [] && world.dir.commands[|world.dir.commands| - 1].phase == CommandInstalled;
        if tip.phase == JournalRecords.Started {
          outcome := ClearStarted(receiptFor);
        } else if tip.phase != CommandReconciled {
          outcome, cleaned := RecoverOpen(inspected, driver, receiptFor);
        } else if commandAlreadyInstalled {
          TailSizes(world);
          outcome, cleaned := FinishRemoval(receiptFor);
        } else {
          outcome, cleaned := FinishCommandReceipt(receiptFor);
        }
      }
      if outcome.Returned? { EffectsAtTheEnd(world); }
    }

    /**
     A recovery that stops before the driver has changed nothing, or has accounted for the
     unfinished operation and no more; the driver may have added operations to the history.
     */
    ghost predicate StoppedFrom(was: State, driver: Option<Driver>)
      requires was.stage.Open?
      reads this
    {
      && Valid() && Inv(world) && SameCommand(was)
      && (if was.stage.active.Stuck? || Mismatched(was) then world == was
          else
            && world.stage.Open? && world.stage.plan == was.stage.plan && RecoveredHistory(was) <= world.stage.history
            && (driver.None? ==>
                  world.stage == Open(was.stage.plan, RecoveredHistory(was), Idle) && world.effects == was.effects))
    }

    /** A command that never got its plan is cleared. */
    method ClearStarted(ghost receiptFor: Handed -> nat) returns (outcome: Outcome)
      requires Valid() && Inv(world) && world.process.recovering && world.stage.Begun?
      modifies this`world, this`steps, this`states, this`labels
      ensures Ran(old(labels)) && !outcome.Threw?
      ensures Took(outcome, old(steps), old(world).dir.claims + 2)
      ensures outcome.Returned? ==> RecoveredTo(EndOf(old(world), receiptFor))
    {
      hide Inv, IsRun, Init, RecoveredHistory, ExpectedReceipt;
      outcome := DisposeOwnership();
      if outcome.Died? { return; }
      BegunShows(world);
      outcome := Durable(DropTerminalGroup);
      if outcome.Died? { return; }
      outcome := Durable(ReleaseLock);
    }

    /** A planned command: the unfinished operation, the terminal phase, the receipt. */
    method RecoverOpen(inspected: Option<Terminal>, driver: Option<Driver>, receiptFor: Handed -> nat)
      returns (outcome: Outcome, cleaned: Option<seq<CompletionReceipt>>)
      requires Valid() && Inv(world) && FreshlyRecovering() && world.stage.Open?
      requires driver.Some? ==> Sound(driver.value.attempts, RecoveredHistory(world))
      modifies this
      ensures Ran(old(labels))
      ensures Took(outcome, old(steps), 5 * |old(world).stage.history| + 13 * AttemptsOf(driver) + old(world).dir.claims + 30)
      ensures outcome.Died? || (outcome.Threw? <==> Blocked(old(world), inspected, driver))
      ensures outcome.Threw? ==> StoppedFrom(old(world), driver)
      ensures outcome.Returned? ==> RecoveredTo(FinalStage(old(world), inspected, driver, receiptFor))
      ensures outcome.Returned? ==> CleanedUp(old(world), true, cleaned)
    {
      hide Inv, IsRun, Init, ClosingBy, RecoveredHistory, FinalStage, EndOf, ExpectedAfterMatches, Sound, Mismatched, Added, Receipts;
      cleaned := None;
      outcome := RecoverActive();
      if !outcome.Returned? { return; }
      IdleIsRecovered(world);
      AddedAtMost(old(world), inspected, driver);
      outcome := CloseRecovered(inspected, driver);
      if !outcome.Returned? { return; }
      SameEnd(old(world), world, inspected, driver, receiptFor);
      outcome, cleaned := FinishCommandReceipt(receiptFor);
    }

    /** One operation of the driver: prepare, mark, submit, reconcile. */
    method Try(attempt: Attempt) returns (outcome: Outcome)
      requires Valid() && Knows() && !active && world.stage.Open?
      requires forall x: Snapshot :: !ExpectedAfterMatches(x, x, attempt.expected)
      requires forall k | 0 <= k < |world.stage.history| :: world.stage.history[k].draft.journalId != attempt.journalId
      modifies this
      ensures Ran(old(labels))
      ensures Took(outcome, old(steps), 8)
      ensures outcome.Died? || (outcome.Threw? <==>
                |old(world).stage.history| >= MAX_OPERATION_RECEIPTS || !Lands(old(world).server, attempt))
      ensures outcome.Threw? ==>
                && Valid() && SameCommand(old(world)) && world.stage.Open? && world.stage.plan == old(world).stage.plan
                && world.stage.history == old(world).stage.history
      ensures outcome.Returned? ==>
                && Valid() && Knows() && !active && SameCommand(old(world))
                && attempt.reply == Some(world.server) && Lands(old(world).server, attempt)
                && world.stage == Open(old(world).stage.plan,
                                       old(world).stage.history + [ResultOf(old(world).server, attempt)], Idle)
    {
      hide Inv, IsRun, Init, ExpectedAfterMatches, GroupTip;
      Safe();
      IdleShows(world);
      TipCounts(world);
      outcome := Prepare(Draft(attempt.journalId, attempt.operation, world.server, attempt.expected));
      if !outcome.Returned? { return; }
      outcome := MarkSubmissionUncertain();
      if !outcome.Returned? { return; }
      outcome := SubmitAndWait(attempt.reply);
      if !outcome.Returned? { return; }
      outcome := Reconcile(attempt.evidence);
    }

    /** The resumed driver: operation after operation, and then the terminal state. */
    method Resume(driver: Driver) returns (outcome: Outcome)
      requires Valid() && Inv(world) && FreshlyRecovering() && world.stage.Open? && world.stage.active.Idle?
      requires Sound(driver.attempts, world.stage.history)
      modifies this
      ensures Ran(old(labels))
      ensures Took(outcome, old(steps), 8 * |driver.attempts| + 1)
      ensures outcome.Died? || (outcome.Threw? <==> !DriverCloses(old(world).stage.plan, |old(world).stage.history|, old(world).server, driver))
      ensures outcome.Threw? ==>
                && Valid() && SameCommand(old(world)) && world.stage.Open? && world.stage.plan == old(world).stage.plan
                && old(world).stage.history <= world.stage.history
      ensures outcome.Returned? ==>
                && Valid() && Inv(world) && SameCommand(old(world))
                && world.stage == Closed(old(world).stage.plan,
                                         old(world).stage.history + Results(old(world).server, driver.attempts, |driver.attempts|),
                                         driver.terminal, None)
    {
      hide Inv, IsRun, Init, ExpectedAfterMatches, GroupTip, Lands, ResultOf, Results, ServerAt, AllLand, Sound;
      IdleShows(world);
      commandGroupCurrent := LastOf(world.dir.groups);
      receiptCount, receiptChainDigest := commandGroupCurrent.count, commandGroupCurrent.chainDigest;
      active, permitPassed := false, false;
      ghost var was := world;
      NoneLanded(was.server, driver.attempts);
      assert was.stage.history + [] == was.stage.history;
      var attempts := driver.attempts;
      for i := 0 to |attempts|
        invariant Ran(old(labels)) && Valid() && Knows() && !active && SameCommand(was)
        invariant steps <= old(steps) <= steps + 8 * i
        invariant AllLand(was.server, attempts, i) && |was.stage.history| + i <= MAX_OPERATION_RECEIPTS
        invariant world.server == ServerAt(was.server, attempts, i)
        invariant world.stage == Open(was.stage.plan, was.stage.history + Results(was.server, attempts, i), Idle)
      {
        StillSound(driver.attempts, was.stage.history, was.server, i);
        outcome := Try(attempts[i]);
        if !outcome.Returned? { NotAllLand(was.server, attempts, i); return; }
        OneMoreLands(was.server, attempts, i);
        assert was.stage.history + Results(was.server, attempts, i) + [ResultOf(ServerAt(was.server, attempts, i), attempts[i])]
            == was.stage.history + Results(was.server, attempts, i + 1);
      }
      outcome := ReconcileCommand(driver.terminal);
      if outcome.Returned? { Safe(); }
    }

    /** The terminal phase of a recovered command: inspected, or reached by the resumed driver. */
    method CloseRecovered(inspected: Option<Terminal>, driver: Option<Driver>) returns (outcome: Outcome)
      requires Valid() && Inv(world) && FreshlyRecovering() && world.stage.Open? && world.stage.active.Idle?
      requires driver.Some? ==> Sound(driver.value.attempts, world.stage.history)
      modifies this
      ensures Ran(old(labels))
      ensures Took(outcome, old(steps), 8 * AttemptsOf(driver) + 1)
      ensures outcome.Died? || (outcome.Threw? <==> ClosingOf(old(world), inspected, driver).Unclosed?)
      ensures outcome.Threw? ==>
                && Valid() && Inv(world) && SameCommand(old(world)) && world.stage.Open?
                && world.stage.plan == old(world).stage.plan && old(world).stage.history <= world.stage.history
                && (driver.None? ==> world == old(world))
      ensures outcome.Returned? ==>
                && Valid() && Inv(world) && SameCommand(old(world))
                && var closing := ClosingOf(old(world), inspected, driver);
                   && world.stage == Closed(old(world).stage.plan,
                                            old(world).stage.history + Added(old(world).server, closing), TerminalOf(closing), None)
                   && world.dir.groups != [] && LastOf(world.dir.groups).terminal == Some(TerminalOf(closing))
    {
      hide Inv, IsRun, ExpectedAfterMatches, GroupTip, Init, AdvanceGroup, Sound, DriverCloses, Results;
      IdleShows(world);
      TipCounts(world);
      var tip := LastOf(world.dir.groups);
      if inspected.Some? && tip.count == 0 && inspected.value.after != tip.plan.value.before { return Threw; }
      if inspected.Some? && tip.count > 0
         && ExpectedAfterMatches(tip.plan.value.before, inspected.value.after, tip.plan.value.expected)
      {
        outcome := Durable(CloseCommand(inspected.value));
        if outcome.Returned? { ClosedShows(world); }
        return;
      }
      if driver.None? { return Threw; }
      outcome := Resume(driver.value);
      if outcome.Threw? { Safe(); }
      if outcome.Returned? { ClosedShows(world); }
    }
  }

  function AttemptsOf(driver: Option<Driver>): nat {
    if driver.None? then 0 else |driver.value.attempts|
  }

  /** What closes a recovered command, if anything does: zero receipts tolerate no drift. */
  datatype Closing = Unclosed | ByInspection(terminal: Terminal) | ByDriver(driver: Driver)

  function ClosingBy(plan: CommandPlan, count: nat, server: Snapshot, inspected: Option<Terminal>, driver: Option<Driver>): Closing {
    if inspected.Some? && count == 0 && inspected.value.after != plan.before then Unclosed
    else if inspected.Some? && count > 0 && ExpectedAfterMatches(plan.before, inspected.value.after, plan.expected) then
      ByInspection(inspected.value)
    else if driver.Some? && DriverCloses(plan, count, server, driver.value) then ByDriver(driver.value)
    else Unclosed
  }

  /** The closing of a command once its unfinished operation is accounted for. */
  function ClosingOf(s: State, inspected: Option<Terminal>, driver: Option<Driver>): Closing
    requires s.stage.Open?
  {
    ClosingBy(s.stage.plan, |RecoveredHistory(s)|, s.server, inspected, driver)
  }

  function Added(server: Snapshot, closing: Closing): seq<Done> {
    if closing.ByDriver? then Results(server, closing.driver.attempts, |closing.driver.attempts|) else []
  }

  /**
   Why recovery stops: a declared ambiguity, a server state that the predicate rejects, or
   nothing that closes the command.
   */
  predicate Blocked(s: State, inspected: Option<Terminal>, driver: Option<Driver>) {
    && s.stage.Open?
    && (s.stage.active.Stuck? || Mismatched(s) || ClosingOf(s, inspected, driver).Unclosed?)
  }

  function TerminalOf(closing: Closing): Terminal
    requires !closing.Unclosed?
  {
    if closing.ByInspection? then closing.terminal else closing.driver.terminal
  }

  /**
   Where the recovery of a command ends that is not open any more: one receipt, the prepared one
   if there is one, and else the one made from what the journal holds.
   */
  function EndOf(s: State, receiptFor: Handed -> nat): Stage {
    match s.stage
    case Begun => Finished([], None)
    case Closed(plan, history, terminal, receipt) =>
      var content := if receipt.Some? then receipt.value else receiptFor(HandedOver(s.binding, plan, history, terminal));
      Finished(history, Some(ExpectedReceipt(PreparedCommand(s.binding, history, content))))
    case Tail(_, history, _, prepared, _, _, _, _) =>
      Finished(history, Some(ExpectedReceipt(PreparedCommand(s.binding, history, prepared))))
    case _ => s.stage
  }

  /**
   Where a recovery that does not stop ends: one receipt, over the recovered history and what the
   driver added, made from the states that the plan began and the closing ended with.
   */
  function FinalStage(s: State, inspected: Option<Terminal>, driver: Option<Driver>, receiptFor: Handed -> nat): Stage {
    if s.stage.Open? then
      var closing := ClosingOf(s, inspected, driver);
      if closing.Unclosed? then s.stage else
      var history := RecoveredHistory(s) + Added(s.server, closing);
      var content := receiptFor(HandedOver(s.binding, s.stage.plan, history, TerminalOf(closing)));
      Finished(history, Some(ExpectedReceipt(PreparedCommand(s.binding, history, content))))
    else EndOf(s, receiptFor)
  }

  /** Once the unfinished operation is accounted for and the command closed, the end is the same. */
  lemma SameEnd(was: State, closed: State, inspected: Option<Terminal>, driver: Option<Driver>, receiptFor: Handed -> nat)
    requires was.stage.Open? && !ClosingOf(was, inspected, driver).Unclosed? && closed.binding == was.binding
    requires var closing := ClosingOf(was, inspected, driver);
             closed.stage == Closed(was.stage.plan, RecoveredHistory(was) + Added(was.server, closing), TerminalOf(closing), None)
    ensures EndOf(closed, receiptFor) == FinalStage(was, inspected, driver, receiptFor)
  {
    hide RecoveredHistory, ExpectedReceipt, Added, ClosingOf, HandedOver;
  }

  lemma AddedAtMost(s: State, inspected: Option<Terminal>, driver: Option<Driver>)
    requires s.stage.Open?
    ensures |Added(s.server, ClosingOf(s, inspected, driver))| <= AttemptsOf(driver)
  {
    hide RecoveredHistory, ExpectedAfterMatches, DriverCloses;
  }

  /** An idle command has nothing left to account for. */
  lemma IdleIsRecovered(s: State)
    requires s.stage.Open? && s.stage.active.Idle?
    ensures RecoveredHistory(s) == s.stage.history
  {
  }

  lemma EffectsAtTheEnd(s: State)
    requires Inv(s) && (s.stage.Fresh? || s.stage.Finished?)
    ensures s.effects == Plans(s.binding, History(s.stage))
  {
    hide FilesInv, OwnersMatch, Plans, ServerMatches, InflightMatches, UnsentMatches;
  }

  predicate DriverCloses(plan: CommandPlan, count: nat, server: Snapshot, driver: Driver) {
    && AllLand(server, driver.attempts, |driver.attempts|) && count + |driver.attempts| <= MAX_OPERATION_RECEIPTS
    && ExpectedAfterMatches(plan.before, driver.terminal.after, plan.expected)
  }

  lemma {:induction false} ResultsAreNamed(server: Snapshot, attempts: seq<Attempt>, n: nat)
    requires n <= |attempts|
    ensures forall i | 0 <= i < n :: Results(server, attempts, n)[i].draft.journalId == attempts[i].journalId
  {
    if n > 0 { ResultsAreNamed(server, attempts, n - 1); }
  }

  /** After `i` attempts the next journal id is still new. */
  lemma StillSound(attempts: seq<Attempt>, history: seq<Done>, server: Snapshot, i: nat)
    requires Sound(attempts, history) && i < |attempts|
    ensures forall x: Snapshot :: !ExpectedAfterMatches(x, x, attempts[i].expected)
    ensures var longer := history + Results(server, attempts, i);
            forall k | 0 <= k < |longer| :: longer[k].draft.journalId != attempts[i].journalId
  {
    hide ExpectedAfterMatches, Results;
    ResultsAreNamed(server, attempts, i);
  }

  lemma NoneLanded(server: Snapshot, attempts: seq<Attempt>)
    ensures AllLand(server, attempts, 0) && ServerAt(server, attempts, 0) == server && Results(server, attempts, 0) == []
  {
  }

  lemma OneMoreLands(server: Snapshot, attempts: seq<Attempt>, i: nat)
    requires i < |attempts| && AllLand(server, attempts, i) && Lands(ServerAt(server, attempts, i), attempts[i])
    ensures AllLand(server, attempts, i + 1) && Some(ServerAt(server, attempts, i + 1)) == attempts[i].reply
    ensures Results(server, attempts, i + 1)
         == Results(server, attempts, i) + [ResultOf(ServerAt(server, attempts, i), attempts[i])]
  {
    hide ExpectedAfterMatches, ResultOf;
  }

  lemma NotAllLand(server: Snapshot, attempts: seq<Attempt>, i: nat)
    requires i < |attempts|
    ensures AllLand(server, attempts, |attempts|) ==> Lands(ServerAt(server, attempts, i), attempts[i])
  {
    hide Lands;
  }

  lemma TipCounts(s: State)
    requires Inv(s) && s.stage.Open? && s.stage.active.Idle?
    ensures s.dir.groups != [] && LastOf(s.dir.groups).count == |s.stage.history|
  {
    hide RemoteInv, ReceiptsKept, IdsDistinct, DoneFiles;
    IdleShows(s);
  }

  lemma NoGroupsMeansReceiptOnly(s: State)
    requires Inv(s) && s.stage.Tail?
    ensures s.dir.groups == [] ==> s.dir.operations == [] && |s.dir.commands| == 1
  {
    hide RemoteInv, ReceiptsKept, IdsDistinct, TerminalHolds, DoneFiles, ChainDigest, ClosedGroups;
  }

  lemma TailSizes(s: State)
    requires Inv(s) && s.stage.Tail?
    ensures |s.dir.operations| <= |s.stage.history| && |s.dir.groups| <= |s.stage.history| + 3
  {
    hide RemoteInv, ReceiptsKept, IdsDistinct, TerminalHolds, DoneFiles, ChainDigest;
  }

  lemma BegunShows(s: State)
    requires Inv(s) && s.stage.Begun?
    ensures s.dir.groups == [StartedRecord(s.binding)] && s.dir.operations == [] && s.dir.commands == []
  {
  }

  /** The stage of each recovery mode. */
  lemma ModeShows(s: State)
    requires Inv(s)
    ensures s.dir.groups == [] && HasWal(s.dir) ==> s.stage.Tail?
    ensures !HasWal(s.dir) ==> s.stage.Fresh? || s.stage.Finished?
    ensures !HasWal(s.dir) ==> s.dir.claims == 0
    ensures s.dir.groups != [] ==>
              && (LastOf(s.dir.groups).phase == JournalRecords.Started <==> s.stage.Begun?)
              && (LastOf(s.dir.groups).phase == CommandReconciled <==> s.stage.Closed? || s.stage.Tail?)
              && (s.stage.Begun? || s.stage.Open? || s.stage.Closed? || s.stage.Tail?)
              && (CleanupTail(s.dir) <==> s.stage.Tail?)
  {
    hide RemoteInv, ReceiptsKept, IdsDistinct, TerminalHolds, DoneFiles, ActiveFiles, OpenGroups, ClosedGroups, ChainDigest;
    if s.dir.groups != [] { LastGroupIs(s.binding, s.stage); }
  }

  function LastCount(s: State): nat {
    if s.dir.groups == [] then 0 else LastOf(s.dir.groups).count
  }

  /** The history once the unfinished operation is accounted for: longer exactly if the server executed it. */
  function RecoveredHistory(s: State): (history: seq<Done>)
    requires s.stage.Open?
    ensures s.stage.history <= history && |history| <= |s.stage.history| + 1
  {
    match s.stage.active
    case Settled(done) => s.stage.history + [done]
    case Receipted(done) => s.stage.history + [done]
    case Marked(draft) =>
      if s.effects == Plans(s.binding, s.stage.history) then s.stage.history
      else s.stage.history + [Done(draft, s.server, RecoveredAfterOwnerDeath)]
    case _ => s.stage.history
  }

  lemma RestingIsIdle(s: State)
    requires Inv(s) && s.stage.Open?
    ensures |s.dir.operations| == LastCount(s) <==> s.stage.active.Idle?
  {
    if s.stage.active.Idle? { IdleShows(s); } else { ActiveShows(s); }
  }

  /**
   What recovery may find at the server: the state before, which means the operation was not
   executed; a state its predicate accepts; or a third one. The last two mean it was executed.
   */
  lemma ServerShows(s: State)
    requires Inv(s) && s.stage.Open? && ClearedFrom(s.stage.active)
    ensures var draft := s.stage.active.draft;
            && (s.server == draft.before <==> s.effects == Plans(s.binding, s.stage.history))
            && (s.server != draft.before <==> s.stage.active.Marked? && Executed(s))
            && (s.server != draft.before && !Mismatched(s) <==> ExpectedAfterMatches(draft.before, s.server, draft.expected))
  {
    hide FilesInv, Plans, ExpectedAfterMatches, PlanAfter, InflightMatches, UnsentMatches;
  }

  /** A request that was never submitted was never executed. */
  lemma UnsentShows(s: State)
    requires Inv(s) && s.stage.Open? && s.stage.active.Marked?
    requires s.process.Live? && !s.process.sent && s.process.operation == Some(s.stage.active.draft.journalId)
    ensures s.server == s.stage.active.draft.before
  {
    hide FilesInv, Plans, ExpectedAfterMatches, PlanAfter, InflightMatches;
  }

  /** The server has executed the unfinished operation into a state that its predicate rejects. */
  predicate Mismatched(s: State) {
    && s.stage.Open? && s.stage.active.Marked? && s.server != s.stage.active.draft.before
    && !ExpectedAfterMatches(s.stage.active.draft.before, s.server, s.stage.active.draft.expected)
  }

  /** The pinned receipt is that of the history and the prepared content, removal or not. */
  lemma PinnedStep(s: State)
    requires s.stage.Closed? && s.stage.receipt.Some?
    ensures forall binding, stage: Stage |
              && stage.Tail? && stage.history == s.stage.history && stage.content == s.stage.receipt.value
              && binding == s.binding ::
              Pinned(binding, stage) == Pinned(s.binding, s.stage)
  {
    hide ExpectedReceipt;
  }

  lemma OneCommandLeft(s: State)
    requires Inv(s) && s.dir.groups != []
    ensures |s.dir.commands| == 1 && s.dir.commands[0].phase == CommandPrepared <==> s.stage.Closed? && s.stage.receipt.Some?
    ensures s.process.Live? && !s.process.recovering ==> s.dir.claims == 0
  {
    hide RemoteInv, ReceiptsKept, IdsDistinct, TerminalHolds, OperationFiles, GroupFiles, ChainDigest;
  }

  /** The removal part of a layout, in the terms its guards use. */
  lemma TailShows(s: State)
    requires Inv(s) && s.stage.Tail?
    ensures CleaningUp(s.dir) && 1 <= |s.dir.commands| <= 2
    ensures s.dir.operations == [] <==> s.stage.operation == |s.stage.history|
    ensures |s.dir.operations| == |s.stage.history| - s.stage.operation && s.stage.file < 4
    ensures s.dir.operations == [] ==> s.stage.file == 0
    ensures forall i | 0 <= i < |s.dir.operations| :: s.dir.operations[i] != []
  {
    hide RemoteInv, ReceiptsKept, IdsDistinct, TerminalHolds, GroupFiles, DoneFiles, ChainDigest;
  }

  lemma ClosedShows(s: State)
    requires Inv(s) && s.stage.Closed?
    ensures s.dir.groups != [] && LastOf(s.dir.groups).phase == CommandReconciled
    ensures var tip := LastOf(s.dir.groups);
            && tip.binding == s.binding && tip.plan == Some(s.stage.plan) && tip.terminal == Some(s.stage.terminal)
            && tip.count == |s.stage.history| && tip.chainDigest == ChainDigest(s.binding, s.stage.history)
    ensures |s.dir.operations| == |s.stage.history|
  {
    hide RemoteInv, ReceiptsKept, IdsDistinct, TerminalHolds, DoneFiles;
    LastGroupIs(s.binding, s.stage);
  }

  /** What the newest file of a completed operation says. */
  lemma OperationShows(s: State, i: nat)
    requires Inv(s) && s.stage.Closed? && i < |s.dir.operations| && |s.dir.operations| == |s.stage.history|
    ensures s.dir.operations[i] != []
    ensures var record, done := Current(s.dir.operations[i]), s.stage.history[i];
            && record.plan == PlanAfter(s.binding, s.stage.history[..i], done.draft)
            && record.after == Some(done.after) && record.outcome == Some(done.outcome)
            && record.receipt == Some(ReceiptAt(s.binding, s.stage.history, i))
            && Some(HandedOperation(record.plan.ordinal, Sha256(PlanBody(record.plan)), record.plan.operation, record.plan.before,
                                    record.after.value, record.outcome.value, ReceiptDigest(record.receipt.value)))
               == Some(HandedAt(s.binding, s.stage.history, i))
  {
    hide RemoteInv, ReceiptsKept, IdsDistinct, TerminalHolds, GroupFiles, PlanAfter, CompletionFor;
  }

  lemma TipPhases(s: State)
    requires Inv(s) && s.dir.groups != []
    ensures LastOf(s.dir.groups).phase == CommandReconciled <==> s.stage.Closed? || s.stage.Tail?
    ensures s.stage.Closed? ==>
              (if s.stage.receipt.None? then s.dir.commands == []
               else |s.dir.commands| == 1 && s.dir.commands[0].phase == CommandPrepared)
    ensures s.stage.Tail? ==> s.dir.commands != []
  {
    hide RemoteInv, ReceiptsKept, IdsDistinct, TerminalHolds, OperationFiles, GroupFiles, ChainDigest;
    LastGroupIs(s.binding, s.stage);
  }

  lemma OpenByTip(s: State)
    requires Inv(s) && s.dir.groups != [] && LastOf(s.dir.groups).phase in {Planned, OperationCheckpoint}
    ensures s.stage.Open?
  {
    hide RemoteInv, ReceiptsKept, IdsDistinct, OperationFiles;
    LastGroupIs(s.binding, s.stage);
  }

  lemma CrashStep(s: State)
    requires s.process.Live?
    ensures Enabled(s, Crash) && Next(s, Crash) == s.(process := Dead)
  {
  }

  lemma RunsEnd(states: seq<State>, labels: seq<Label>)
    requires IsRun(states, labels)
    ensures |states| == |labels| + 1
  {
  }

  lemma RunGrows(states: seq<State>, labels: seq<Label>, l: Label)
    requires IsRun(states, labels) && Enabled(states[|labels|], l)
    ensures IsRun(states + [Next(states[|labels|], l)], labels + [l])
  {
    hide Enabled, Next, Init;
  }
}
