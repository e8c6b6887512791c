/**
 Removal of a retained artifact and its source tree, resumable from a tombstone file
 (scripts/greater-realm-production-immutable-artifact.ts,
 cleanupGreaterRealmRetainedImmutableArtifact and writeCleanupPhase).

 The checkout itself is verified and removed by functions that are not part of this model:
 opening it accepts exactly the tracked tree and nothing untracked but the allowed bundle,
 and removing it deletes what is left of the tracked tree, then the root.
 */
module ArtifactCleanup {
  import opened Wrappers

  datatype Phase = Prepared | ArtifactUnlinking | ArtifactRemoved | TreeRemoving | Complete

  function Ordinal(phase: Phase): nat {
    match phase
    case Prepared => 0
    case ArtifactUnlinking => 1
    case ArtifactRemoved => 2
    case TreeRemoving => 3
    case Complete => 4
  }

  /**
   What is on disk. `paired`: the tombstone still shares its inode with the temporary it was
   linked from. `ancestors`: directories above the artifact's own that hold nothing tracked.
   */
  datatype Disk = Disk(
    tombstone: Option<Phase>,
    paired: bool,
    artifact: bool,
    artifactDirectory: bool,
    ancestors: nat,
    tracked: nat,
    root: bool,
    intent: bool)

  /**
   A built artifact before any cleanup. Its path is fixed below the root, so the only directory
   that can hold nothing tracked is `spacetimedb`, which is `bare` then.
   */
  function Retained(bare: bool, tracked: nat, intent: bool): Disk {
    Disk(None, false, true, true, Above(bare), tracked, true, intent)
  }

  function Above(bare: bool): nat { if bare then 1 else 0 }

  /** What each tombstone phase promises of the disk. */
  predicate Inv(d: Disk, ancestors: nat, tracked: nat) {
    && (d.paired ==> d.tombstone == Some(Prepared))
    && match d.tombstone
       case None => d.artifact && d.artifactDirectory && d.ancestors == ancestors && d.root && d.tracked == tracked
       case Some(Prepared) => d.artifact && d.artifactDirectory && d.ancestors == ancestors && d.root && d.tracked == tracked
       case Some(ArtifactUnlinking) =>
         && d.root && d.tracked == tracked && d.ancestors <= ancestors
         && (d.artifact ==> d.artifactDirectory) && (d.artifactDirectory ==> d.ancestors == ancestors)
       case Some(ArtifactRemoved) => !d.artifact && !d.artifactDirectory && d.ancestors == 0 && d.root && d.tracked == tracked
       case Some(TreeRemoving) =>
         !d.artifact && !d.artifactDirectory && d.ancestors == 0 && d.tracked <= tracked && (!d.root ==> d.tracked == 0)
       case Some(Complete) => !d.artifact && !d.artifactDirectory && d.ancestors == 0 && d.tracked == 0 && !d.root
  }

  /** An untracked directory is left over that no later run looks at. */
  predicate Stuck(d: Disk) {
    d.tombstone == Some(ArtifactUnlinking) && !d.artifactDirectory && d.ancestors > 0
  }

  function PhaseOrdinal(d: Disk): int {
    if d.tombstone.None? then -1 else Ordinal(d.tombstone.value)
  }

  // ------------------------------------------------------------- the order of the writes

  predicate Done(d: Disk) {
    d.tombstone == Some(Complete) && !d.intent
  }

  /** The durable write that comes next, wherever a run stands. */
  function Next(d: Disk): Disk {
    if d.paired then d.(paired := false) else
    match d.tombstone
    case None => d.(tombstone := Some(Prepared), paired := true)
    case Some(Prepared) => d.(tombstone := Some(ArtifactUnlinking))
    case Some(ArtifactUnlinking) =>
      if d.artifact then d.(artifact := false)
      else if d.artifactDirectory then d.(artifactDirectory := false)
      else if d.ancestors > 0 then d.(ancestors := d.ancestors - 1)
      else d.(tombstone := Some(ArtifactRemoved))
    case Some(ArtifactRemoved) => d.(tombstone := Some(TreeRemoving))
    case Some(TreeRemoving) =>
      if d.tracked > 0 then d.(tracked := d.tracked - 1)
      else if d.root then d.(root := false)
      else d.(tombstone := Some(Complete))
    case Some(Complete) => d.(intent := false)
  }

  function After(d: Disk, n: nat): Disk {
    if n == 0 then d else Next(After(d, n - 1))
  }

  function One(b: bool): nat { if b then 1 else 0 }

  /** How many writes there are still to come. */
  function Left(d: Disk): nat {
    One(d.paired) + One(d.intent)
    + match d.tombstone
      case None => 9 + d.ancestors + d.tracked
      case Some(Prepared) => 7 + d.ancestors + d.tracked
      case Some(ArtifactUnlinking) => One(d.artifact) + One(d.artifactDirectory) + d.ancestors + 4 + d.tracked
      case Some(ArtifactRemoved) => 3 + d.tracked
      case Some(TreeRemoving) => d.tracked + One(d.root) + 1
      case Some(Complete) => 0
  }

  lemma NextKeeps(d: Disk, ancestors: nat, tracked: nat)
    requires Inv(d, ancestors, tracked)
    ensures Inv(Next(d), ancestors, tracked) && PhaseOrdinal(d) <= PhaseOrdinal(Next(d))
    ensures Left(d) == 0 <==> Done(d)
    ensures Left(Next(d)) == if Done(d) then 0 else Left(d) - 1
  {
  }

  lemma InvSays(d: Disk, ancestors: nat, tracked: nat)
    requires Inv(d, ancestors, tracked)
    ensures d.paired ==> d.tombstone == Some(Prepared)
    ensures d.tombstone == Some(Prepared) ==> d.artifact
    ensures d.artifact ==> PhaseOrdinal(d) <= 1 && d.artifactDirectory
    ensures !d.root ==> d.tombstone in {Some(TreeRemoving), Some(Complete)}
    ensures d.root ==> d.tombstone != Some(Complete)
    ensures d.tombstone in {Some(ArtifactRemoved), Some(TreeRemoving)} ==> !d.artifact && d.ancestors == 0
  {
  }

  lemma {:induction false} AfterKeeps(d: Disk, n: nat, ancestors: nat, tracked: nat)
    requires Inv(d, ancestors, tracked)
    ensures Inv(After(d, n), ancestors, tracked) && PhaseOrdinal(d) <= PhaseOrdinal(After(d, n))
    ensures Left(After(d, n)) == if n < Left(d) then Left(d) - n else 0
  {
    hide Inv, Next, Left, Done, PhaseOrdinal;
    if n > 0 {
      AfterKeeps(d, n - 1, ancestors, tracked);
      NextKeeps(After(d, n - 1), ancestors, tracked);
    }
  }

  lemma AfterNone(d: Disk)
    ensures After(d, 0) == d
  {
  }

  lemma {:induction false} AfterAdds(d: Disk, m: nat, n: nat)
    ensures After(After(d, m), n) == After(d, m + n)
  {
    hide Next;
    if n > 0 { AfterAdds(d, m, n - 1); }
  }

  // ------------------------------------------------------------------------- the program

  datatype Failure = CleanupStateInvalid | UntrackedDirectory

  datatype Outcome = Returned | Died | Threw(why: Failure)

  class Cleanup {
    var disk: Disk
    var steps: nat // durable steps left before the process dies
    const ancestors: nat
    const tracked: nat

    /** A retained artifact that nobody has begun to clean up. */
    constructor (bare: bool, tracked: nat, intent: bool)
      ensures Valid() && disk == Retained(bare, tracked, intent) && ancestors == Above(bare) && this.tracked == tracked
    {
      this.disk, this.ancestors, this.tracked, steps := Retained(bare, tracked, intent), Above(bare), tracked, 0;
    }

    ghost predicate Valid()
      reads this
    {
      Inv(disk, ancestors, tracked)
    }

    /** Since `was`, as many writes were made as the process has fewer steps left, and they were the next ones. */
    ghost predicate Moved(was: Disk, budget: nat)
      reads this
    {
      Valid() && steps <= budget && disk == After(was, budget - steps)
    }

    /** A process that died had something left to write. */
    ghost predicate Cut()
      reads this
    {
      steps == 0 && !Done(disk)
    }

    /** A durable write, or death before it. */
    method Write(next: Disk) returns (done: bool)
      requires Valid() && next == Next(disk) && !Done(disk)
      modifies this
      ensures Moved(old(disk), old(steps))
      ensures if done then disk == next && steps + 1 == old(steps) else disk == old(disk) && Cut()
    {
      NextKeeps(disk, ancestors, tracked);
      done := steps > 0;
      if done {
        disk, steps := next, steps - 1;
        assert After(old(disk), 1) == Next(After(old(disk), 0));
      }
    }

    /** What has moved twice has moved. */
    lemma MovedOn(was: Disk, budget: nat, via: Disk, mid: nat)
      requires mid <= budget && via == After(was, budget - mid) && Moved(via, mid)
      ensures Moved(was, budget)
    {
      hide After, Inv;
      AfterAdds(was, budget - mid, mid - steps);
    }

    /** `readCleanupPhase`: unlinks the temporary a crash left beside the tombstone. */
    method ReadPhase() returns (alive: bool, phase: Option<Phase>)
      requires Valid()
      modifies this
      ensures Moved(old(disk), old(steps))
      ensures if alive then disk == old(disk).(paired := false) && phase == disk.tombstone else Cut() && disk == old(disk) && disk.paired
    {
      phase, alive := disk.tombstone, true;
      if disk.paired { alive := Write(disk.(paired := false)); }
    }

    /** `writeCleanupPhase` with `initial`: link, then unlink the temporary. */
    method WriteInitial() returns (alive: bool)
      requires Valid() && disk.tombstone.None?
      modifies this
      ensures Moved(old(disk), old(steps))
      ensures if alive then disk == old(disk).(tombstone := Some(Prepared)) else Cut()
    {
      alive := Write(disk.(tombstone := Some(Prepared), paired := true));
      if !alive { return; }
      ghost var via, mid := disk, steps;
      alive := Write(disk.(paired := false));
      MovedOn(old(disk), old(steps), via, mid);
    }

    /** Directories that have become empty, innermost first. */
    method RemoveEmptyDirectories() returns (alive: bool)
      requires Valid() && disk.tombstone == Some(ArtifactUnlinking) && !disk.artifact
      modifies this
      ensures Moved(old(disk), old(steps))
      ensures if alive then disk == old(disk).(artifactDirectory := false, ancestors := 0) else Cut()
    {
      alive := true;
      if disk.artifactDirectory {
        alive := Write(disk.(artifactDirectory := false));
        if !alive { return; }
      }
      while disk.ancestors > 0
        invariant Moved(old(disk), old(steps))
        invariant disk == old(disk).(artifactDirectory := false, ancestors := disk.ancestors)
        decreases disk.ancestors
      {
        ghost var via, mid := disk, steps;
        alive := Write(disk.(ancestors := disk.ancestors - 1));
        MovedOn(old(disk), old(steps), via, mid);
        if !alive { return; }
      }
    }

    /** The artifact phase: verify, unlink, empty the directories. */
    method RemoveArtifact() returns (outcome: Outcome)
      requires Valid() && !disk.paired && disk.tombstone in {Some(Prepared), Some(ArtifactUnlinking)}
      modifies this
      ensures Moved(old(disk), old(steps))
      ensures outcome.Threw? <==> Stuck(old(disk))
      ensures outcome.Threw? ==> outcome.why == UntrackedDirectory && disk == old(disk)
      ensures outcome.Died? ==> Cut()
      ensures outcome.Returned? ==> disk.tombstone == Some(ArtifactRemoved) && !disk.paired
    {
      hide After, Inv;
      InvSays(disk, ancestors, tracked);
      AfterNone(disk);
      var cleared := true;
      if !disk.artifact && disk.artifactDirectory {
        cleared := RemoveEmptyDirectories();
        if !cleared { return Died; }
      }
      // opening the checkout rejects a directory that is neither tracked nor on the way to the bundle
      if !disk.artifact && disk.ancestors > 0 { return Threw(UntrackedDirectory); }
      ghost var via, mid := disk, steps;
      if disk.tombstone != Some(ArtifactUnlinking) {
        cleared := Write(disk.(tombstone := Some(ArtifactUnlinking)));
        MovedOn(old(disk), old(steps), via, mid);
        if !cleared { return Died; }
      }
      via, mid := disk, steps;
      if disk.artifact {
        cleared := Write(disk.(artifact := false));
        MovedOn(old(disk), old(steps), via, mid);
        if !cleared { return Died; }
      }
      via, mid := disk, steps;
      cleared := RemoveEmptyDirectories();
      MovedOn(old(disk), old(steps), via, mid);
      if !cleared { return Died; }
      via, mid := disk, steps;
      cleared := Write(disk.(tombstone := Some(ArtifactRemoved)));
      MovedOn(old(disk), old(steps), via, mid);
      outcome := if cleared then Returned else Died;
    }

    /** Removal of the checkout: tracked files, then the root; a partial tree is accepted. */
    method RemoveTree() returns (alive: bool)
      requires Valid() && disk.tombstone == Some(TreeRemoving) && disk.root && !disk.paired
      modifies this
      ensures Moved(old(disk), old(steps))
      ensures if alive then disk == old(disk).(tracked := 0, root := false) else Cut()
    {
      alive := true;
      ghost var via, mid := disk, steps;
      while disk.tracked > 0
        invariant Moved(old(disk), old(steps))
        invariant disk == old(disk).(tracked := disk.tracked)
        decreases disk.tracked
      {
        via, mid := disk, steps;
        alive := Write(disk.(tracked := disk.tracked - 1));
        MovedOn(old(disk), old(steps), via, mid);
        if !alive { return; }
      }
      via, mid := disk, steps;
      alive := Write(disk.(root := false));
      MovedOn(old(disk), old(steps), via, mid);
    }

    /** The end of every run: the phase, then the build intent. */
    method Finish() returns (outcome: Outcome)
      requires Valid() && !disk.paired && !disk.root && disk.tombstone in {Some(TreeRemoving), Some(Complete)}
      modifies this
      ensures Moved(old(disk), old(steps)) && !outcome.Threw?
      ensures if outcome.Returned? then Done(disk) else Cut()
    {
      var written := true;
      if disk.tombstone != Some(Complete) {
        written := Write(disk.(tombstone := Some(Complete)));
        if !written { return Died; }
      }
      ghost var via, mid := disk, steps;
      if disk.intent {
        written := Write(disk.(intent := false));
        MovedOn(old(disk), old(steps), via, mid);
      }
      outcome := if written then Returned else Died;
    }

    /**
     `cleanupGreaterRealmRetainedImmutableArtifact`, by a process that lives for `budget` durable
     steps. Wherever the last run was cut, this one makes exactly the writes that were left.
     */
    method Run(budget: nat) returns (outcome: Outcome)
      requires Valid()
      modifies this
      ensures Valid()
      ensures outcome.Threw? <==> Stuck(old(disk))
      ensures outcome.Threw? ==> outcome.why == UntrackedDirectory && disk == old(disk)
      ensures !outcome.Threw? ==> disk == After(old(disk), budget)
      ensures outcome.Returned? <==> !Stuck(old(disk)) && Left(old(disk)) <= budget
      ensures outcome.Returned? ==> Done(disk) && !disk.artifact && !disk.root
    {
      hide After, Next, Inv, Left;
      steps := budget;
      outcome := RunPhases();
      if !outcome.Threw? {
        Spent(old(disk), disk, budget - steps, budget, ancestors, tracked);
      }
    }

    /** The phases of one run. */
    method RunPhases() returns (outcome: Outcome)
      requires Valid()
      modifies this
      ensures Moved(old(disk), old(steps))
      ensures outcome.Threw? <==> Stuck(old(disk))
      ensures outcome.Threw? ==> outcome.why == UntrackedDirectory && disk == old(disk)
      ensures outcome.Died? ==> Cut()
      ensures outcome.Returned? ==> Done(disk)
    {
      hide After, Inv;
      AfterNone(disk);
      InvSays(disk, ancestors, tracked);
      var alive, phase := ReadPhase();
      if !alive { return Died; }
      InvSays(disk, ancestors, tracked);
      ghost var via, mid := disk, steps;
      if phase.None? {
        alive := WriteInitial();
        MovedOn(old(disk), old(steps), via, mid);
        if !alive { return Died; }
        InvSays(disk, ancestors, tracked);
        via, mid := disk, steps;
      }
      if disk.tombstone == Some(Complete) {
        outcome := Finish();
        MovedOn(old(disk), old(steps), via, mid);
        return;
      }
      if !disk.root {
        if disk.tombstone != Some(TreeRemoving) { return Threw(CleanupStateInvalid); }
        outcome := Finish();
        MovedOn(old(disk), old(steps), via, mid);
        return;
      }
      if disk.artifact && Ordinal(disk.tombstone.value) >= Ordinal(ArtifactRemoved) { return Threw(CleanupStateInvalid); }
      outcome := RemoveArtifactAndTree();
      MovedOn(old(disk), old(steps), via, mid);
    }

    /** With the checkout still there: the artifact phase unless it is over, the tree phase, the end. */
    method RemoveArtifactAndTree() returns (outcome: Outcome)
      requires Valid() && !disk.paired && disk.root && disk.tombstone.Some?
      modifies this
      ensures Moved(old(disk), old(steps))
      ensures outcome.Threw? <==> Stuck(old(disk))
      ensures outcome.Threw? ==> outcome.why == UntrackedDirectory && disk == old(disk)
      ensures outcome.Died? ==> Cut()
      ensures outcome.Returned? ==> Done(disk)
    {
      hide After, Inv;
      InvSays(disk, ancestors, tracked);
      AfterNone(disk);
      ghost var via, mid := disk, steps;
      if Ordinal(disk.tombstone.value) < Ordinal(ArtifactRemoved) {
        outcome := RemoveArtifact();
        if !outcome.Returned? { return; }
        InvSays(disk, ancestors, tracked);
        via, mid := disk, steps;
      }
      var alive := true;
      if disk.tombstone != Some(TreeRemoving) {
        alive := Write(disk.(tombstone := Some(TreeRemoving)));
        MovedOn(old(disk), old(steps), via, mid);
        if !alive { return Died; }
        InvSays(disk, ancestors, tracked);
        via, mid := disk, steps;
      }
      alive := RemoveTree();
      MovedOn(old(disk), old(steps), via, mid);
      if !alive { return Died; }
      via, mid := disk, steps;
      outcome := Finish();
      MovedOn(old(disk), old(steps), via, mid);
    }

    /** One run after another, each cut where its budget ends. */
    method RunAll(budgets: seq<nat>)
      requires Valid()
      modifies this
      ensures Valid() && disk == Runs(old(disk), budgets)
    {
      hide After, Inv, Left;
      for i := 0 to |budgets|
        invariant Valid() && disk == Runs(old(disk), budgets[..i])
      {
        ghost var before := disk;
        var outcome := Run(budgets[i]);
        assert disk == if Stuck(before) then before else After(before, budgets[i]);
        assert budgets[..i + 1][..i] == budgets[..i] && budgets[..i + 1][i] == budgets[i];
      }
      assert budgets[..|budgets|] == budgets;
    }
  }

  /** A run that stopped after `made` writes has made all that its budget allowed. */
  lemma Spent(was: Disk, now: Disk, made: nat, budget: nat, ancestors: nat, tracked: nat)
    requires Inv(was, ancestors, tracked) && made <= budget && now == After(was, made)
    requires made == budget || Done(now)
    ensures now == After(was, budget)
    ensures Left(now) == 0 <==> Left(was) <= made
    ensures Done(now) <==> Left(now) == 0
    ensures Done(now) ==> !now.artifact && !now.root
  {
    AfterKeeps(was, made, ancestors, tracked);
    NextKeeps(now, ancestors, tracked);
    if Done(now) { DoneStays(now, budget - made); AfterAdds(was, made, budget - made); }
  }

  lemma {:induction false} DoneStays(d: Disk, n: nat)
    requires Done(d) && !d.paired
    ensures After(d, n) == d
  {
    if n > 0 { DoneStays(d, n - 1); }
  }

  // --------------------------------------------------------------- from a retained artifact

  /** The disk after a series of runs: a stuck one is left as it is. */
  function Runs(d: Disk, budgets: seq<nat>): Disk {
    if budgets == [] then d else
    var before := Runs(d, budgets[..|budgets| - 1]);
    if Stuck(before) then before else After(before, budgets[|budgets| - 1])
  }

  function Sum(budgets: seq<nat>): nat {
    if budgets == [] then 0 else Sum(budgets[..|budgets| - 1]) + budgets[|budgets| - 1]
  }

  /** The first five writes after which an untracked directory may be left over. */
  lemma FirstFive(d: Disk)
    requires d.tombstone.None? && !d.paired && d.artifact && d.artifactDirectory
    ensures After(d, 5) == d.(tombstone := Some(ArtifactUnlinking), artifact := false, artifactDirectory := false)
    ensures forall n | 0 <= n < 5 :: !Stuck(After(d, n))
  {
    var d1, d2 := After(d, 1), After(d, 2);
    var d3, d4 := After(d, 3), After(d, 4);
    assert After(d, 0) == d;
    assert d1 == d.(tombstone := Some(Prepared), paired := true) && d2 == d.(tombstone := Some(Prepared));
    assert d3 == d.(tombstone := Some(ArtifactUnlinking)) && d4 == d3.(artifact := false);
    assert After(d, 5) == Next(d4);
    forall n | 0 <= n < 5 ensures !Stuck(After(d, n)) {
      assert n == 0 || n == 1 || n == 2 || n == 3 || n == 4;
    }
  }

  /** Of all crash points of a retained artifact, one is stuck: after five writes, in a bare directory. */
  lemma StuckAt(bare: bool, tracked: nat, intent: bool, n: nat)
    ensures Stuck(After(Retained(bare, tracked, intent), n)) <==> bare && n == 5
  {
    var d := Retained(bare, tracked, intent);
    FirstFive(d);
    Sixth(d, After(d, 5));
    hide After;
    if n >= 6 && !(bare && n == 6) {
      var later := if bare then 7 else 6;
      PastUnlinking(After(d, later), n - later);
      AfterAdds(d, later, n - later);
    }
  }

  /** After the fifth write the untracked directory goes, if there is one, and then the phase is over. */
  lemma Sixth(d: Disk, at: Disk)
    requires at == After(d, 5) && at.tombstone == Some(ArtifactUnlinking) && !at.paired
    requires !at.artifact && !at.artifactDirectory && at.ancestors <= 1
    ensures at.ancestors == 1 ==> After(d, 6) == at.(ancestors := 0)
    ensures After(d, if at.ancestors == 1 then 7 else 6) == at.(ancestors := 0, tombstone := Some(ArtifactRemoved))
  {
    assert After(d, 6) == Next(at) && After(d, 7) == Next(Next(at));
  }

  lemma {:induction false} PastUnlinking(d: Disk, n: nat)
    requires d.tombstone.Some? && Ordinal(d.tombstone.value) >= 2 && !d.paired
    ensures !Stuck(After(d, n)) && After(d, n).tombstone.Some? && Ordinal(After(d, n).tombstone.value) >= 2
    ensures !After(d, n).paired
  {
    if n > 0 { PastUnlinking(d, n - 1); }
  }

  /** The budgets of some initial part of the series add up to five. */
  predicate StopsAtFive(budgets: seq<nat>) {
    budgets != [] && (StopsAtFive(budgets[..|budgets| - 1]) || Sum(budgets) == 5)
  }

  /** Unless one of them stopped at the stuck point, a series of runs is one long run. */
  lemma {:induction false} RunsAddUp(bare: bool, tracked: nat, intent: bool, budgets: seq<nat>)
    ensures var start := Retained(bare, tracked, intent);
            Runs(start, budgets)
            == After(start, if bare && StopsAtFive(budgets) then 5 else Sum(budgets))
  {
    hide After, Stuck;
    var start := Retained(bare, tracked, intent);
    AfterNone(start);
    if budgets != [] {
      var shorter, last := budgets[..|budgets| - 1], budgets[|budgets| - 1];
      RunsAddUp(bare, tracked, intent, shorter);
      StuckAt(bare, tracked, intent, Sum(shorter));
      StuckAt(bare, tracked, intent, 5);
      AfterAdds(start, Sum(shorter), last);
    }
  }

  /** With something tracked in the module's directory, crashes cost nothing: enough writes in all complete the cleanup. */
  lemma EveryCrashResumes(tracked: nat, intent: bool, budgets: seq<nat>)
    ensures var start := Retained(false, tracked, intent);
            && Runs(start, budgets) == After(start, Sum(budgets))
            && (Done(Runs(start, budgets)) <==> Sum(budgets) >= Left(start))
  {
    var start := Retained(false, tracked, intent);
    RunsAddUp(false, tracked, intent, budgets);
    AfterKeeps(start, Sum(budgets), 0, tracked);
    NextKeeps(After(start, Sum(budgets)), 0, tracked);
  }

  /** In a bare one they cost nothing exactly if no run stops after the fifth write of all. */
  lemma BlockedExactly(tracked: nat, intent: bool, budgets: seq<nat>)
    ensures Stuck(Runs(Retained(true, tracked, intent), budgets))
            <==> StopsAtFive(budgets)
  {
    hide After, Stuck;
    RunsAddUp(true, tracked, intent, budgets);
    StuckAt(true, tracked, intent, 5);
    StuckAt(true, tracked, intent, Sum(budgets));
  }

  /** The artifact is never unlinked before the phase that announces it is durable. */
  lemma UnlinkedMeansAnnounced(bare: bool, tracked: nat, intent: bool, n: nat)
    ensures var d := After(Retained(bare, tracked, intent), n);
            !d.artifact ==> PhaseOrdinal(d) >= Ordinal(ArtifactUnlinking)
  {
    AfterKeeps(Retained(bare, tracked, intent), n, Above(bare), tracked);
  }

  /** A first run cut after five writes, and every later one fails. */
  method CrashThatBlocks(tracked: nat, intent: bool, budget: nat) returns (first: Outcome, second: Outcome)
    ensures first == Died && second == Threw(UntrackedDirectory)
  {
    var cleanup := new Cleanup(true, tracked, intent);
    StuckAt(true, tracked, intent, 0);
    StuckAt(true, tracked, intent, 5);
    first := cleanup.Run(5);
    second := cleanup.Run(budget);
  }
}
