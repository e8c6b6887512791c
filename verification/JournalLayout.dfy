/**
 What a journal directory looks like at every point of a command's life: the exact files,
 as a function of the operations completed so far and of how far writing or removal got.
 */
module JournalLayout {
  import opened Wrappers
  import opened SnapshotRules
  import opened JournalRecords

  datatype Draft = Draft(journalId: nat, operation: Operation, before: Snapshot, expected: Predicate)
  datatype Done = Done(draft: Draft, after: Snapshot, outcome: Evidence)

  /** The one operation that may be unfinished, by what its files say. */
  datatype Active =
    | Idle
    | Drafted(draft: Draft)              // prepared
    | Marked(draft: Draft)               // prepared, submission-uncertain
    | Clearing(draft: Draft)             // submission-uncertain alone: removal has begun
    | Stuck(draft: Draft, identity: nat) // manual-ambiguity
    | Settled(done: Done)                // reconciled
    | Receipted(done: Done)              // receipt-installed, not yet checkpointed

  datatype Stage =
    | Fresh
    | Begun
    | Open(plan: CommandPlan, history: seq<Done>, active: Active)
    | Closed(plan: CommandPlan, history: seq<Done>, terminal: Terminal, receipt: Option<nat>)
    | Tail(plan: CommandPlan, history: seq<Done>, terminal: Terminal, content: nat,
           operation: nat, file: nat, group: nat, preparedLeft: bool)
    | Finished(history: seq<Done>, result: Option<Digest>)

  function History(stage: Stage): seq<Done> {
    if stage.Fresh? || stage.Begun? then [] else stage.history
  }

  // ----------------------------------------------------------- plans and receipts

  function PlanAfter(b: Binding, history: seq<Done>, draft: Draft): (plan: Plan)
    ensures plan.binding == b && plan.ordinal == |history| + 1
    ensures plan.before == draft.before && plan.expected == draft.expected && plan.operation == draft.operation
    decreases |history|, 1
  {
    Plan(b, |history| + 1, Tip(b, history), draft.operation, draft.before, draft.expected)
  }

  function ReceiptAt(b: Binding, history: seq<Done>, k: nat): CompletionReceipt
    requires k < |history|
    decreases k, 2
  {
    CompletionFor(PlanAfter(b, history[..k], history[k].draft), history[k].after, history[k].outcome)
  }

  /** The digest of the newest receipt. */
  function Tip(b: Binding, history: seq<Done>): Option<Digest>
    decreases |history|, 0
  {
    if history == [] then None else Some(ReceiptDigest(ReceiptAt(b, history, |history| - 1)))
  }

  function ChainDigest(b: Binding, history: seq<Done>): Digest {
    if history == [] then Sha256(EmptyChain(b)) else Tip(b, history).value
  }

  /** The remote writes a history stands for, in order. */
  function Plans(b: Binding, history: seq<Done>): seq<Plan> {
    seq(|history|, k requires 0 <= k < |history| => PlanAfter(b, history[..k], history[k].draft))
  }

  lemma PlansSnoc(b: Binding, history: seq<Done>, done: Done)
    ensures Plans(b, history + [done]) == Plans(b, history) + [PlanAfter(b, history, done.draft)]
  {
    forall k | 0 <= k < |history| ensures (history + [done])[..k] == history[..k] {}
    assert (history + [done])[..|history|] == history;
  }

  lemma ReceiptOfPrefix(b: Binding, history: seq<Done>, n: nat, k: nat)
    requires k < n <= |history|
    ensures ReceiptAt(b, history[..n], k) == ReceiptAt(b, history, k)
  {
    assert history[..n][..k] == history[..k];
  }

  // -------------------------------------------------------------- operation files

  function MarkedRecord(prepared: OperationRecord): OperationRecord {
    prepared.(phase := SubmissionUncertain, previousPhase := Some(Sha256(OperationBody(prepared))))
  }

  function StuckRecord(marked: OperationRecord, identity: nat): OperationRecord {
    marked.(phase := ManualAmbiguity, previousPhase := Some(Sha256(OperationBody(marked))), ambiguity := Some(identity))
  }

  function SettledRecord(marked: OperationRecord, after: Snapshot, outcome: Evidence): OperationRecord {
    marked.(phase := Reconciled, previousPhase := Some(Sha256(OperationBody(marked))),
            after := Some(after), outcome := Some(outcome), receipt := Some(CompletionFor(marked.plan, after, outcome)))
  }

  function ReceiptedRecord(settled: OperationRecord): OperationRecord {
    settled.(phase := ReceiptInstalled, previousPhase := Some(Sha256(OperationBody(settled))))
  }

  function MarkedFiles(plan: Plan, id: nat): seq<OperationRecord> {
    var prepared := PreparedRecord(plan, id);
    [prepared, MarkedRecord(prepared)]
  }

  function SettledFiles(plan: Plan, id: nat, after: Snapshot, outcome: Evidence): seq<OperationRecord> {
    var marked := MarkedFiles(plan, id);
    marked + [SettledRecord(marked[1], after, outcome)]
  }

  function ReceiptedFiles(plan: Plan, id: nat, after: Snapshot, outcome: Evidence): (files: seq<OperationRecord>)
    ensures |files| == 4
  {
    var settled := SettledFiles(plan, id, after, outcome);
    settled + [ReceiptedRecord(settled[2])]
  }

  function ActiveFiles(plan: Plan, active: Active): seq<OperationRecord>
    requires !active.Idle?
  {
    match active
    case Drafted(d) => [PreparedRecord(plan, d.journalId)]
    case Marked(d) => MarkedFiles(plan, d.journalId)
    case Clearing(d) => MarkedFiles(plan, d.journalId)[1..]
    case Stuck(d, identity) =>
      MarkedFiles(plan, d.journalId) + [StuckRecord(MarkedFiles(plan, d.journalId)[1], identity)]
    case Settled(done) => SettledFiles(plan, done.draft.journalId, done.after, done.outcome)
    case Receipted(done) => ReceiptedFiles(plan, done.draft.journalId, done.after, done.outcome)
  }

  function DraftOf(active: Active): Draft
    requires !active.Idle?
  {
    if active.Settled? || active.Receipted? then active.done.draft else active.draft
  }

  function DoneFiles(b: Binding, history: seq<Done>, k: nat): (files: seq<OperationRecord>)
    requires k < |history|
    ensures |files| == 4
  {
    var done := history[k];
    ReceiptedFiles(PlanAfter(b, history[..k], done.draft), done.draft.journalId, done.after, done.outcome)
  }

  function DoneOperations(b: Binding, history: seq<Done>): (operations: seq<seq<OperationRecord>>)
    ensures |operations| == |history|
    ensures forall k | 0 <= k < |history| :: operations[k] == DoneFiles(b, history, k)
  {
    seq(|history|, k requires 0 <= k < |history| => DoneFiles(b, history, k))
  }

  lemma DoneOperationsSnoc(b: Binding, history: seq<Done>, done: Done)
    ensures DoneOperations(b, history + [done])
         == DoneOperations(b, history) + [ActiveFiles(PlanAfter(b, history, done.draft), Receipted(done))]
  {
    var longer := history + [done];
    forall k | 0 <= k < |history| ensures DoneFiles(b, longer, k) == DoneFiles(b, history, k) {
      assert longer[..k] == history[..k];
    }
    assert longer[..|history|] == history;
  }

  // ------------------------------------------------------------------ group files

  function PlannedGroup(b: Binding, plan: CommandPlan): GroupRecord {
    GroupRecord(Planned, 2, Some(Sha256(GroupBody(StartedRecord(b)))), b, Some(plan), Sha256(EmptyChain(b)), 0, None)
  }

  function GroupTip(b: Binding, plan: CommandPlan, history: seq<Done>): (tip: GroupRecord)
    ensures tip.ordinal == |history| + 2 && tip.count == |history| && tip.binding == b && tip.plan == Some(plan)
    ensures tip.phase == (if history == [] then Planned else OperationCheckpoint)
    ensures tip.chainDigest == ChainDigest(b, history) && tip.terminal == None
    ensures tip.previousPhase.Some?
    decreases |history|
  {
    if history == [] then PlannedGroup(b, plan) else
    var previous := GroupTip(b, plan, history[..|history| - 1]);
    previous.(phase := OperationCheckpoint, ordinal := |history| + 2, previousPhase := Some(Sha256(GroupBody(previous))),
              chainDigest := ChainDigest(b, history), count := |history|)
  }

  function ReconciledGroup(b: Binding, plan: CommandPlan, history: seq<Done>, terminal: Terminal): GroupRecord {
    var previous := GroupTip(b, plan, history);
    previous.(phase := CommandReconciled, ordinal := |history| + 3, previousPhase := Some(Sha256(GroupBody(previous))),
              terminal := Some(terminal))
  }

  function OpenGroups(b: Binding, plan: CommandPlan, history: seq<Done>): (groups: seq<GroupRecord>)
    ensures |groups| == |history| + 2 && groups[0] == StartedRecord(b)
    ensures forall i | 1 <= i < |groups| :: groups[i] == GroupTip(b, plan, history[..i - 1])
    ensures groups[|groups| - 1] == GroupTip(b, plan, history)
  {
    assert history[..|history|] == history;
    [StartedRecord(b)] + seq(|history| + 1, i requires 0 <= i <= |history| => GroupTip(b, plan, history[..i]))
  }

  lemma OpenGroupsSnoc(b: Binding, plan: CommandPlan, history: seq<Done>, done: Done)
    ensures OpenGroups(b, plan, history + [done])
         == OpenGroups(b, plan, history) + [GroupTip(b, plan, history + [done])]
  {
    var longer := history + [done];
    var groups, next := OpenGroups(b, plan, history), OpenGroups(b, plan, longer);
    forall i | 1 <= i < |groups| ensures next[i] == groups[i] {
      assert longer[..i - 1] == history[..i - 1];
    }
  }

  function ClosedGroups(b: Binding, plan: CommandPlan, history: seq<Done>, terminal: Terminal): (groups: seq<GroupRecord>)
    ensures |groups| == |history| + 3
  {
    OpenGroups(b, plan, history) + [ReconciledGroup(b, plan, history, terminal)]
  }

  // ---------------------------------------------------------------- command files

  function PreparedCommand(b: Binding, history: seq<Done>, content: nat): CommandRecord {
    CommandRecord(CommandPrepared, None, b, ChainDigest(b, history), |history|, content, None)
  }

  // ----------------------------------------------------------------------- layout

  predicate WellFormed(stage: Stage) {
    && |History(stage)| <= MAX_OPERATION_RECEIPTS
    && (stage.Open? && !stage.active.Idle? ==> |stage.history| < MAX_OPERATION_RECEIPTS)
    && (stage.Tail? ==>
          && stage.operation <= |stage.history| && stage.file < 4
          && (stage.operation == |stage.history| ==> stage.file == 0)
          && stage.group <= |stage.history| + 3
          && (stage.operation < |stage.history| ==> stage.group == 0 && stage.preparedLeft)
          && (stage.group == |stage.history| + 3 ==> !stage.preparedLeft))
  }

  function GroupFiles(b: Binding, stage: Stage): seq<GroupRecord>
    requires WellFormed(stage)
  {
    match stage
    case Fresh => []
    case Begun => [StartedRecord(b)]
    case Open(plan, history, _) => OpenGroups(b, plan, history)
    case Closed(plan, history, terminal, _) => ClosedGroups(b, plan, history, terminal)
    case Tail(plan, history, terminal, _, _, _, group, _) => ClosedGroups(b, plan, history, terminal)[group..]
    case Finished(_, _) => []
  }

  function OperationFiles(b: Binding, stage: Stage): seq<seq<OperationRecord>>
    requires WellFormed(stage)
  {
    match stage
    case Fresh => []
    case Begun => []
    case Open(_, history, active) =>
      DoneOperations(b, history)
      + if active.Idle? then [] else [ActiveFiles(PlanAfter(b, history, DraftOf(active)), active)]
    case Closed(_, history, _, _) => DoneOperations(b, history)
    case Tail(_, history, _, _, operation, file, _, _) =>
      if operation == |history| then [] else
      [DoneFiles(b, history, operation)[file..]] + DoneOperations(b, history)[operation + 1..]
    case Finished(_, _) => []
  }

  function CommandFiles(b: Binding, stage: Stage): seq<CommandRecord>
    requires WellFormed(stage)
  {
    match stage
    case Closed(_, history, _, content) =>
      if content.None? then [] else [PreparedCommand(b, history, content.value)]
    case Tail(_, history, _, content, _, _, _, preparedLeft) =>
      var prepared := PreparedCommand(b, history, content);
      if preparedLeft then [prepared, InstalledCommand(prepared)] else [InstalledCommand(prepared)]
    case _ => []
  }

  /** The journal files of `dir` are exactly those of `stage`. */
  ghost predicate LaidOut(b: Binding, stage: Stage, dir: Directory) {
    && WellFormed(stage)
    && dir.groups == GroupFiles(b, stage)
    && dir.operations == OperationFiles(b, stage)
    && dir.commands == CommandFiles(b, stage)
  }

  // ------------------------------------------- every layout passes the readers' checks

  lemma ReceiptedFilesAreValid(plan: Plan, id: nat, after: Snapshot, outcome: Evidence)
    requires 1 <= plan.ordinal <= MAX_OPERATION_RECEIPTS
    ensures ValidOperationFiles(ReceiptedFiles(plan, id, after, outcome))
    ensures Current(ReceiptedFiles(plan, id, after, outcome)).phase == ReceiptInstalled
    ensures Current(ReceiptedFiles(plan, id, after, outcome)).receipt == Some(CompletionFor(plan, after, outcome))
    ensures Current(ReceiptedFiles(plan, id, after, outcome)).plan == plan
  {
  }

  lemma SuffixIsValid(files: seq<OperationRecord>, n: nat)
    requires ValidOperationFiles(files) && n < |files| && PhaseOrdinal(files[0].phase) == 1
    ensures ValidOperationFiles(files[n..]) && Current(files[n..]) == Current(files)
  {
    hide ParsesOperation;
    var left := files[n..];
    forall i | 0 <= i < |left| ensures FollowsOn(left, i) {
      assert FollowsOn(files, n + i) && FollowsOn(files, n) && left[i] == files[n + i];
    }
    if n > 0 { assert FollowsOn(files, n) && FollowsOn(files, n - 1); }
  }

  lemma ActiveFilesAreValid(plan: Plan, active: Active)
    requires !active.Idle? && 1 <= plan.ordinal <= MAX_OPERATION_RECEIPTS
    ensures ValidOperationFiles(ActiveFiles(plan, active))
    ensures Current(ActiveFiles(plan, active)).plan == plan
    ensures Current(ActiveFiles(plan, active)).phase == ReceiptInstalled <==> active.Receipted?
  {
    match active
    case Drafted(d) =>
    case Marked(d) =>
    case Clearing(d) =>
    case Stuck(d, identity) =>
    case Settled(done) =>
    case Receipted(done) => ReceiptedFilesAreValid(plan, done.draft.journalId, done.after, done.outcome);
  }

  /** A completed operation is readable from any of its four files on, and says what it completed. */
  lemma DoneFilesAreValid(b: Binding, history: seq<Done>, k: nat, file: nat)
    requires k < |history| <= MAX_OPERATION_RECEIPTS && file < 4
    ensures var files := DoneFiles(b, history, k)[file..];
            && ValidOperationFiles(files)
            && Current(files).phase == ReceiptInstalled
            && Current(files).plan == PlanAfter(b, history[..k], history[k].draft)
            && Current(files).receipt == Some(ReceiptAt(b, history, k))
  {
    var done := history[k];
    var plan := PlanAfter(b, history[..k], done.draft);
    ReceiptedFilesAreValid(plan, done.draft.journalId, done.after, done.outcome);
    SuffixIsValid(DoneFiles(b, history, k), file);
  }

  lemma OpenGroupsAreValid(b: Binding, plan: CommandPlan, history: seq<Done>)
    requires |history| <= MAX_OPERATION_RECEIPTS
    ensures ValidGroupFiles(OpenGroups(b, plan, history))
  {
    var groups := OpenGroups(b, plan, history);
    forall i | 0 < i < |groups|
      ensures ParsesGroup(groups[i]) && groups[i].ordinal == i + 1
      ensures groups[i].previousPhase == Some(Sha256(GroupBody(groups[i - 1])))
      ensures groups[i].phase != Planned ==> groups[i].plan == groups[i - 1].plan
      ensures groups[i].phase == OperationCheckpoint ==> groups[i].count == groups[i - 1].count + 1
    {
      if i > 1 {
        assert history[..i - 1][..i - 2] == history[..i - 2];
      }
    }
  }

  lemma GroupSuffixIsValid(groups: seq<GroupRecord>, n: nat)
    requires ValidGroupFiles(groups) && groups[0].ordinal == 1 && n < |groups|
    ensures ValidGroupFiles(groups[n..])
  {
    hide ParsesGroup;
    var left := groups[n..];
    forall i | 0 <= i < |left| ensures GroupFollowsOn(left, i) {
      assert GroupFollowsOn(groups, n + i) && GroupFollowsOn(groups, n) && left[i] == groups[n + i];
    }
    GroupStarts(groups, n);
  }

  lemma GroupStarts(groups: seq<GroupRecord>, n: nat)
    requires ValidGroupFiles(groups) && groups[0].ordinal == 1 && n < |groups|
    ensures groups[n].ordinal == 1 <==> groups[n].previousPhase == None
  {
    hide ParsesGroup;
    assert GroupFollowsOn(groups, n);
  }

  lemma ClosedGroupsAreValid(b: Binding, plan: CommandPlan, history: seq<Done>, terminal: Terminal)
    requires |history| <= MAX_OPERATION_RECEIPTS
    requires ExpectedAfterMatches(plan.before, terminal.after, plan.expected)
    ensures ValidGroupFiles(ClosedGroups(b, plan, history, terminal)) && ClosedGroups(b, plan, history, terminal)[0].ordinal == 1
  {
    hide ExpectedAfterMatches, ValidGroupFiles;
    OpenGroupsAreValid(b, plan, history);
    var open := OpenGroups(b, plan, history);
    var last := ReconciledGroup(b, plan, history, terminal);
    assert ParsesGroup(last);
    OneGroupMore(open, last);
  }

  lemma OneGroupMore(groups: seq<GroupRecord>, last: GroupRecord)
    requires ValidGroupFiles(groups) && ParsesGroup(last) && |groups| < MAX_OPERATION_RECEIPTS + 3
    requires last.phase == CommandReconciled && last.ordinal == groups[0].ordinal + |groups| && last.binding == groups[0].binding
    requires var tip := LastOf(groups);
             && last.previousPhase == Some(Sha256(GroupBody(tip))) && last.plan == tip.plan && last.count == tip.count
    ensures ValidGroupFiles(groups + [last])
  {
    hide ParsesGroup;
    var more := groups + [last];
    forall i | 0 <= i < |more| ensures GroupFollowsOn(more, i) {
      if i < |groups| { assert GroupFollowsOn(groups, i) && more[i] == groups[i] && (i > 0 ==> more[i - 1] == groups[i - 1]); }
    }
  }

  lemma BegunGroupIsValid(b: Binding)
    ensures ValidGroupFiles([StartedRecord(b)])
  {
  }

  ghost predicate TerminalHolds(stage: Stage) {
    stage.Closed? || stage.Tail? ==> ExpectedAfterMatches(stage.plan.before, stage.terminal.after, stage.plan.expected)
  }

  lemma LayoutGroupsAreValid(b: Binding, stage: Stage)
    requires WellFormed(stage) && TerminalHolds(stage) && GroupFiles(b, stage) != []
    ensures ValidGroupFiles(GroupFiles(b, stage))
  {
    hide ValidGroupFiles, OpenGroups, ClosedGroups, ExpectedAfterMatches;
    match stage
    case Begun => BegunGroupIsValid(b);
    case Open(plan, history, _) => OpenGroupsAreValid(b, plan, history);
    case Closed(plan, history, terminal, _) => ClosedGroupsAreValid(b, plan, history, terminal);
    case Tail(plan, history, terminal, _, _, _, group, _) =>
      ClosedGroupsAreValid(b, plan, history, terminal);
      GroupSuffixIsValid(ClosedGroups(b, plan, history, terminal), group);
  }

  lemma LastGroupIs(b: Binding, stage: Stage)
    requires WellFormed(stage) && GroupFiles(b, stage) != []
    ensures var tip := LastOf(GroupFiles(b, stage));
            && tip.binding == b && tip.count == |History(stage)| && tip.chainDigest == ChainDigest(b, History(stage))
            && (tip.phase == CommandReconciled <==> stage.Closed? || stage.Tail?)
            && (tip.phase == JournalRecords.Started <==> stage.Begun?)
  {
  }

  function StartOf(stage: Stage): nat {
    if stage.Tail? then stage.operation else 0
  }

  /** Which of the four files of operation `i` is the oldest one left. */
  function FileOf(stage: Stage, i: nat): nat {
    if stage.Tail? && i == 0 then stage.file else 0
  }

  lemma DoneFilesAt(b: Binding, stage: Stage, i: nat)
    requires WellFormed(stage) && i < |OperationFiles(b, stage)| && StartOf(stage) + i < |History(stage)|
    ensures FileOf(stage, i) < 4
    ensures OperationFiles(b, stage)[i] == DoneFiles(b, History(stage), StartOf(stage) + i)[FileOf(stage, i)..]
  {
    hide DoneFiles, ActiveFiles, PlanAfter;
    var files := DoneFiles(b, History(stage), StartOf(stage) + i);
    assert files[0..] == files;
  }

  lemma ActiveFilesAt(b: Binding, stage: Stage, i: nat)
    requires WellFormed(stage) && i < |OperationFiles(b, stage)| && StartOf(stage) + i >= |History(stage)|
    ensures stage.Open? && !stage.active.Idle? && i == |History(stage)|
    ensures OperationFiles(b, stage)[i] == ActiveFiles(PlanAfter(b, stage.history, DraftOf(stage.active)), stage.active)
  {
    hide DoneFiles, ActiveFiles, PlanAfter;
  }

  lemma HistoryFits(stage: Stage)
    requires WellFormed(stage)
    ensures |History(stage)| <= MAX_OPERATION_RECEIPTS
    ensures stage.Open? && !stage.active.Idle? ==> |stage.history| < MAX_OPERATION_RECEIPTS
  {
  }

  /** Completed operation `k` of a history: where its files sit in a layout, and what they say. */
  lemma DoneOperationAt(b: Binding, stage: Stage, i: nat)
    requires WellFormed(stage) && i < |OperationFiles(b, stage)| && StartOf(stage) + i < |History(stage)|
    ensures ValidOperationFiles(OperationFiles(b, stage)[i])
    ensures var record := Current(OperationFiles(b, stage)[i]);
            && record.phase == ReceiptInstalled
            && record.plan == PlanAfter(b, History(stage)[..StartOf(stage) + i], History(stage)[StartOf(stage) + i].draft)
            && record.receipt == Some(ReceiptAt(b, History(stage), StartOf(stage) + i))
  {
    hide OperationFiles, DoneFiles, ValidOperationFiles, PlanAfter, WellFormed, ReceiptAt;
    HistoryFits(stage);
    DoneFilesAt(b, stage, i);
    DoneFilesAreValid(b, History(stage), StartOf(stage) + i, FileOf(stage, i));
  }

  /** The operation after the completed ones is the active one. */
  lemma ActiveOperationAt(b: Binding, stage: Stage, i: nat)
    requires WellFormed(stage) && i < |OperationFiles(b, stage)| && StartOf(stage) + i >= |History(stage)|
    ensures stage.Open? && !stage.active.Idle? && i == |History(stage)|
    ensures ValidOperationFiles(OperationFiles(b, stage)[i])
    ensures var record := Current(OperationFiles(b, stage)[i]);
            && record.plan == PlanAfter(b, stage.history, DraftOf(stage.active))
            && (record.phase == ReceiptInstalled <==> stage.active.Receipted?)
  {
    hide OperationFiles, ActiveFiles, ValidOperationFiles, WellFormed;
    HistoryFits(stage);
    ActiveFilesAt(b, stage, i);
    ActiveFilesAreValid(PlanAfter(b, stage.history, DraftOf(stage.active)), stage.active);
  }

  lemma OperationAt(b: Binding, stage: Stage, i: nat)
    requires WellFormed(stage) && i < |OperationFiles(b, stage)|
    ensures ValidOperationFiles(OperationFiles(b, stage)[i])
    ensures var record := Current(OperationFiles(b, stage)[i]);
            var k := StartOf(stage) + i;
            && k <= |History(stage)|
            && record.plan.binding == b && record.plan.ordinal == k + 1
            && record.plan.previousReceipt == Tip(b, History(stage)[..k])
            && (k < |History(stage)| ==>
                  record.phase == ReceiptInstalled && record.receipt == Some(ReceiptAt(b, History(stage), k)))
            && (k == |History(stage)| ==>
                  && stage.Open? && !stage.active.Idle?
                  && (record.phase == ReceiptInstalled <==> stage.active.Receipted?))
  {
    hide OperationFiles, ValidOperationFiles, WellFormed;
    if StartOf(stage) + i < |History(stage)| {
      DoneOperationAt(b, stage, i);
    } else {
      ActiveOperationAt(b, stage, i);
      assert stage.history[..|stage.history|] == stage.history;
    }
  }

  /** The plan of operation `i` of a layout, against the one before it. */
  lemma LayoutLinks(b: Binding, stage: Stage, i: nat)
    requires ReadableLayout(b, stage) && i < |OperationFiles(b, stage)|
    ensures LinksBack(OperationFiles(b, stage), i, stage.Tail?)
  {
    hide ValidOperationFiles, OperationFiles, PlanAfter, CompletionFor, WellFormed;
    OperationAt(b, stage, i);
    if i > 0 {
      OperationAt(b, stage, i - 1);
      var k := StartOf(stage) + i;
      ReceiptOfPrefix(b, History(stage), k, k - 1);
    }
  }

  ghost predicate ReadableLayout(b: Binding, stage: Stage) {
    WellFormed(stage) && ReadableOperations(OperationFiles(b, stage))
  }

  lemma LayoutIsReadable(b: Binding, stage: Stage)
    requires WellFormed(stage)
    ensures ReadableLayout(b, stage)
  {
    hide ValidOperationFiles, DoneFiles, ActiveFiles, PlanAfter;
    forall i | 0 <= i < |OperationFiles(b, stage)| ensures ValidOperationFiles(OperationFiles(b, stage)[i]) {
      OperationAt(b, stage, i);
    }
  }

  lemma LayoutOperationsAdmit(b: Binding, stage: Stage)
    requires WellFormed(stage)
    ensures OperationChainAdmits(OperationFiles(b, stage), b, stage.Tail?)
  {
    hide ValidOperationFiles, OperationFiles, PlanAfter, Tip, ReceiptAt, WellFormed, LinksBack;
    LayoutIsReadable(b, stage);
    var operations := OperationFiles(b, stage);
    forall i | 0 <= i < |operations|
      ensures var record := Current(operations[i]);
              && record.plan.ordinal == (if stage.Tail? then FirstOrdinal(operations) + i else i + 1)
              && record.plan.binding == b
              && LinksBack(operations, i, stage.Tail?)
              && (stage.Tail? ==> record.phase == ReceiptInstalled)
    {
      OperationAt(b, stage, i);
      OperationAt(b, stage, 0);
      LayoutLinks(b, stage, i);
    }
  }

  lemma {:induction false} CompletedCountIs(operations: seq<seq<OperationRecord>>, n: nat)
    requires n <= |operations|
    requires forall i | 0 <= i < |operations| :: operations[i] != []
    requires forall i | 0 <= i < n :: Current(operations[i]).phase == ReceiptInstalled
    requires n < |operations| ==> Current(operations[n]).phase != ReceiptInstalled
    ensures CompletedCount(operations) == n
  {
    if n > 0 {
      CompletedCountIs(operations[1..], n - 1);
    }
  }

  /** How many operations of an open or closed layout have their receipt installed. */
  function CompletedIn(stage: Stage): nat {
    |History(stage)| + if stage.Open? && stage.active.Receipted? then 1 else 0
  }

  lemma LayoutCompleted(b: Binding, stage: Stage)
    requires WellFormed(stage) && !stage.Tail? && !stage.Finished?
    ensures ReadableLayout(b, stage)
    ensures CompletedCount(OperationFiles(b, stage)) == CompletedIn(stage)
    ensures |OperationFiles(b, stage)| <= CompletedIn(stage) + 1
  {
    hide ValidOperationFiles, OperationFiles, PlanAfter, ReceiptAt, Tip, CompletedCount, WellFormed;
    LayoutIsReadable(b, stage);
    OperationsCount(b, stage);
    var operations := OperationFiles(b, stage);
    forall i | 0 <= i < |operations|
      ensures operations[i] != [] && (Current(operations[i]).phase == ReceiptInstalled <==> i < CompletedIn(stage))
    {
      OperationAt(b, stage, i);
    }
    CompletedCountIs(operations, CompletedIn(stage));
  }

  lemma OperationsCount(b: Binding, stage: Stage)
    requires WellFormed(stage) && !stage.Tail? && !stage.Finished?
    ensures |OperationFiles(b, stage)| == |History(stage)| + if stage.Open? && !stage.active.Idle? then 1 else 0
  {
    hide DoneFiles, ActiveFiles, PlanAfter;
  }

  /** The newest operation of the history carries the receipt the chain digest names. */
  lemma NewestReceipt(b: Binding, stage: Stage, i: nat)
    requires ReadableLayout(b, stage) && i < |OperationFiles(b, stage)| && StartOf(stage) + i + 1 == |History(stage)|
    ensures var record := Current(OperationFiles(b, stage)[i]);
            && record.plan.ordinal == |History(stage)|
            && record.receipt.Some? && ReceiptDigest(record.receipt.value) == ChainDigest(b, History(stage))
  {
    hide OperationFiles, ValidOperationFiles, PlanAfter, CompletionFor;
    OperationAt(b, stage, i);
  }

  lemma LayoutCheckpointAdmits(b: Binding, stage: Stage, tip: GroupRecord)
    requires WellFormed(stage) && !stage.Tail? && !stage.Finished?
    requires tip.binding == b && tip.count == |History(stage)| && tip.chainDigest == ChainDigest(b, History(stage))
    ensures CheckpointAdmits(OperationFiles(b, stage), tip)
  {
    hide OperationFiles, ValidOperationFiles, CompletedCount, WellFormed, Tip;
    LayoutCompleted(b, stage);
    if tip.count > 0 {
      NewestReceipt(b, stage, tip.count - 1);
    }
  }

  lemma LayoutTailAdmits(b: Binding, stage: Stage, dir: Directory, tip: GroupRecord)
    requires LaidOut(b, stage, dir) && stage.Tail?
    requires tip.count == |History(stage)| && tip.chainDigest == ChainDigest(b, History(stage))
    ensures TailAdmits(dir, tip)
  {
    hide ValidOperationFiles, DoneFiles, GroupFiles, PlanAfter, ChainDigest;
    LayoutIsReadable(b, stage);
    if dir.operations != [] {
      hide OperationFiles;
      OperationAt(b, stage, 0);
      NewestReceipt(b, stage, |dir.operations| - 1);
    }
  }

  lemma LayoutCommandsAreValid(b: Binding, stage: Stage)
    requires WellFormed(stage)
    ensures ValidCommandFiles(CommandFiles(b, stage))
  {
  }

  /** Recovery accepts every layout that still holds a command group. */
  lemma LayoutIsAdmitted(b: Binding, stage: Stage, dir: Directory)
    requires LaidOut(b, stage, dir) && TerminalHolds(stage) && dir.groups != []
    ensures RecoveryAdmits(dir) && (CleanupTail(dir) <==> stage.Tail?)
  {
    hide ExpectedAfterMatches, ChainDigest, ValidGroupFiles, OperationFiles, GroupFiles, TailAdmits, CheckpointAdmits, OperationChainAdmits, WellFormed, TerminalHolds;
    LayoutGroupsAreValid(b, stage);
    LayoutOperationsAdmit(b, stage);
    LastGroupIs(b, stage);
    LayoutCommandsAreValid(b, stage);
    if stage.Tail? {
      LayoutTailAdmits(b, stage, dir, LastOf(dir.groups));
    } else {
      NotFinished(b, stage);
      LayoutCheckpointAdmits(b, stage, LastOf(dir.groups));
    }
  }

  lemma NotFinished(b: Binding, stage: Stage)
    requires WellFormed(stage) && GroupFiles(b, stage) != []
    ensures !stage.Finished?
  {
  }
}
