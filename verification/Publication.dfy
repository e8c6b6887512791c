/**
 Publication of an immutable file: write a temporary, link it to its destination, unlink the
 temporary. One publisher interleaves, system call by system call, with any number of
 processes that sweep linked pairs a crash may have left
 (scripts/greater-realm-cutover-operation-journal.ts, installImmutableFile,
 completeLinkedPublication and recoverExactLinkedCrashPairs).
 */
module Publication {
  import opened Wrappers

  type Bytes = seq<nat>

  /** What a name points at; both names can only ever point at a file the publisher made. */
  datatype Inode = Inode(owner: Owner, body: Bytes)
  datatype Owner = ThePublisher | SomebodyElse

  datatype Names = Names(temporary: Option<Inode>, destination: Option<Inode>)

  /** The link count `stat` reports for the temporary or the destination. */
  function Links(names: Names): nat {
    (if names.temporary.Some? then 1 else 0) + (if names.destination.Some? then 1 else 0)
  }

  /** Where the publisher is. `Reading` and `Unlinking` stand between two system calls on one name. */
  datatype Publisher =
    | Looking                 // existsSync(destination)
    | Creating                // open(temporary, O_CREAT | O_EXCL)
    | Writing(offset: nat)
    | Checking                // fsync, fstat
    | Linking
    | Inspecting              // lstat(temporary)
    | Opening                 // open(temporary), fstat: two links expected
    | Reading(links: nat)     // read, fstat: nothing may have changed
    | Confirming              // unlinkExact: lstat
    | Unlinking               // unlinkExact: unlink
    | Rechecking              // after any failure above: is the temporary still there?
    | Rereading               // destination, after somebody else removed the temporary
    | Finishing               // destination again
    | Leaving                 // lstat(temporary): must be absent
    | Published
    | Failed
    | Crashed

  datatype Sweeper =
    | SweepStart              // lstat(temporary): two links, or nothing to do
    | SweepExists             // existsSync(destination)
    | SweepOpenTemporary
    | SweepReadTemporary(links: nat)
    | SweepOpenDestination(read: Inode)
    | SweepReadDestination(read: Inode, links: nat)
    | SweepConfirm(read: Inode)
    | SweepUnlink(read: Inode)
    | SweepVerify(read: Inode)
    | SweepDone
    | SweepFailed

  datatype State = State(target: Bytes, names: Names, publisher: Publisher, sweepers: seq<Sweeper>)

  datatype Actor =
    | Publish(chunk: nat) // how many bytes a write accepts
    | Sweep(sweeper: nat)
    | Arrive              // another sweeper starts
    | Crash

  // ------------------------------------------------------------------ the publisher

  function Exact(names: Names, links: nat, target: Bytes): bool {
    names.destination == Some(Inode(ThePublisher, target)) && Links(names) == links
  }

  function PublisherStep(s: State, chunk: nat): State {
    match s.publisher
    case Looking =>
      if s.names.destination.None? then s.(publisher := if s.target == [] then Failed else Creating)
      else s.(publisher := if Exact(s.names, 1, s.target) then Published else Failed)
    case Creating =>
      if s.names.temporary.Some? then s.(publisher := Failed)
      else s.(names := s.names.(temporary := Some(Inode(ThePublisher, []))), publisher := Writing(0))
    case Writing(offset) =>
      if offset >= |s.target| then s.(publisher := Checking)
      else if chunk == 0 then s.(publisher := Failed)
      else
        var next := if offset + chunk < |s.target| then offset + chunk else |s.target|;
        s.(names := if s.names.temporary.Some?
                    then s.names.(temporary := Some(Inode(ThePublisher, s.target[..next]))) else s.names,
           publisher := Writing(next))
    case Checking =>
      s.(publisher := if s.names.temporary == Some(Inode(ThePublisher, s.target)) && Links(s.names) == 1 then Linking else Failed)
    case Linking =>
      if s.names.destination.Some? || s.names.temporary.None? then s.(publisher := Failed)
      else s.(names := s.names.(destination := s.names.temporary), publisher := Inspecting)
    case Inspecting =>
      if s.names.temporary.None? then s.(publisher := Rereading)
      else if s.names.temporary.value.owner.ThePublisher? && Links(s.names) == 2 && |s.names.temporary.value.body| == |s.target|
      then s.(publisher := Opening)
      else s.(publisher := Failed)
    case Opening =>
      s.(publisher := if s.names.temporary.Some? && Links(s.names) == 2 then Reading(2) else Rechecking)
    case Reading(links) =>
      // the descriptor still reads a file that has lost its name; the link count tells
      s.(publisher := if Links(s.names) == links && s.names.destination == Some(Inode(ThePublisher, s.target))
                      then Confirming else Rechecking)
    case Confirming =>
      s.(publisher := if s.names.temporary.Some? && s.names.temporary.value.owner.ThePublisher? && Links(s.names) == 2
                      then Unlinking else Rechecking)
    case Unlinking =>
      if s.names.temporary.None? then s.(publisher := Rechecking)
      else s.(names := s.names.(temporary := None), publisher := Finishing)
    case Rechecking => s.(publisher := if s.names.temporary.Some? then Failed else Rereading)
    case Rereading => s.(publisher := if Exact(s.names, 1, s.target) then Finishing else Failed)
    case Finishing => s.(publisher := if Exact(s.names, 1, s.target) then Leaving else Failed)
    case Leaving => s.(publisher := if s.names.temporary.Some? then Failed else Published)
    case Published => s
    case Failed => s
    case Crashed => s
  }

  // ------------------------------------------------------------------- the sweepers

  function SweeperStep(names: Names, at: Sweeper): (Names, Sweeper) {
    match at
    case SweepStart =>
      (names, if names.temporary.None? || Links(names) != 2 then SweepDone else SweepExists)
    case SweepExists => (names, if names.destination.None? then SweepFailed else SweepOpenTemporary)
    case SweepOpenTemporary =>
      (names, if names.temporary.Some? && Links(names) == 2 then SweepReadTemporary(2) else SweepFailed)
    case SweepReadTemporary(links) =>
      (names, if names.temporary.Some? && Links(names) == links then SweepOpenDestination(names.temporary.value) else SweepFailed)
    case SweepOpenDestination(read) =>
      (names, if names.destination.Some? && Links(names) == 2 then SweepReadDestination(read, 2) else SweepFailed)
    case SweepReadDestination(read, links) =>
      (names, if names.destination == Some(read) && Links(names) == links then SweepConfirm(read) else SweepFailed)
    case SweepConfirm(read) =>
      (names, if names.temporary.Some? && names.temporary.value.owner == read.owner && Links(names) == 2 then SweepUnlink(read)
              else SweepFailed)
    case SweepUnlink(read) =>
      if names.temporary.None? then (names, SweepFailed) else (names.(temporary := None), SweepVerify(read))
    case SweepVerify(read) =>
      (names, if names.destination == Some(read) && Links(names) == 1 then SweepDone else SweepFailed)
    case SweepDone => (names, at)
    case SweepFailed => (names, at)
  }

  function Step(s: State, actor: Actor): State {
    match actor
    case Publish(chunk) => PublisherStep(s, chunk)
    case Sweep(i) =>
      if i >= |s.sweepers| then s else
      var (names, at) := SweeperStep(s.names, s.sweepers[i]);
      s.(names := names, sweepers := s.sweepers[i := at])
    case Arrive => s.(sweepers := s.sweepers + [SweepStart])
    case Crash => if s.publisher.Published? then s else s.(publisher := Crashed)
  }

  function Run(s: State, actors: seq<Actor>): State {
    if actors == [] then s else Step(Run(s, actors[..|actors| - 1]), actors[|actors| - 1])
  }

  // ---------------------------------------------------------------------- invariant

  /** Absent, or the whole body on the publisher's own inode. */
  ghost predicate DestinationWhole(s: State) {
    s.names.destination.Some? ==> s.names.destination.value == Inode(ThePublisher, s.target)
  }

  /** A sweeper past its start saw both names, so the link had been made. */
  ghost predicate SweeperKnows(s: State, at: Sweeper) {
    match at
    case SweepStart => true
    case SweepDone => true
    case SweepFailed => true
    case SweepExists => s.names.destination.Some?
    case SweepOpenTemporary => s.names.destination.Some?
    case SweepReadTemporary(links) => s.names.destination.Some? && links == 2
    case SweepOpenDestination(read) => s.names.destination == Some(read)
    case SweepReadDestination(read, links) => s.names.destination == Some(read) && links == 2
    case SweepConfirm(read) => s.names.destination == Some(read)
    case SweepUnlink(read) => s.names.destination == Some(read)
    case SweepVerify(read) => s.names.destination == Some(read) && s.names.temporary.None?
  }

  ghost predicate PublisherKnows(s: State) {
    match s.publisher
    case Looking => s.names == Names(None, None)
    case Creating => s.names == Names(None, None) && s.target != []
    case Writing(offset) =>
      offset <= |s.target| && s.names == Names(Some(Inode(ThePublisher, s.target[..offset])), None)
    case Checking => s.names == Names(Some(Inode(ThePublisher, s.target)), None)
    case Linking => s.names == Names(Some(Inode(ThePublisher, s.target)), None)
    case Reading(links) => s.names.destination.Some? && links == 2
    case Rechecking => s.names.destination.Some? && s.names.temporary.None?
    case Rereading => s.names.destination.Some? && s.names.temporary.None?
    case Finishing => s.names.destination.Some? && s.names.temporary.None?
    case Leaving => s.names.destination.Some? && s.names.temporary.None?
    case Published => s.names.destination.Some? && s.names.temporary.None?
    case Failed => s.names.destination.None?
    case Crashed => true
    case _ => s.names.destination.Some?
  }

  ghost predicate Inv(s: State) {
    && DestinationWhole(s)
    && (s.names.destination.Some? && s.names.temporary.Some? ==> s.names.temporary == s.names.destination)
    && PublisherKnows(s)
    && forall i | 0 <= i < |s.sweepers| :: SweeperKnows(s, s.sweepers[i])
  }

  ghost predicate Init(s: State) {
    s.names == Names(None, None) && s.publisher == Looking && s.sweepers == []
  }

  lemma PublisherKeeps(s: State, chunk: nat)
    requires Inv(s)
    ensures Inv(PublisherStep(s, chunk))
  {
    assert s.target[..|s.target|] == s.target;
    forall i | 0 <= i < |s.sweepers| ensures SweeperKnows(PublisherStep(s, chunk), s.sweepers[i]) {
      assert SweeperKnows(s, s.sweepers[i]);
    }
  }

  /** A sweeper removes the temporary and nothing else, and only once it has seen the destination. */
  lemma SweeperTouches(names: Names, at: Sweeper)
    ensures var after := SweeperStep(names, at).0;
            after == names || (at.SweepUnlink? && after == names.(temporary := None))
  {
  }

  lemma SweeperKeeps(s: State, i: nat)
    requires Inv(s) && i < |s.sweepers|
    ensures Inv(Step(s, Sweep(i)))
  {
    var (names, at) := SweeperStep(s.names, s.sweepers[i]);
    var t := Step(s, Sweep(i));
    SweeperTouches(s.names, s.sweepers[i]);
    assert SweeperKnows(s, s.sweepers[i]);
    assert SweeperKnows(t, at);
    assert PublisherKnows(t);
    forall j | 0 <= j < |t.sweepers| ensures SweeperKnows(t, t.sweepers[j]) {
      assert j != i ==> SweeperKnows(s, s.sweepers[j]);
    }
  }

  lemma StepKeeps(s: State, actor: Actor)
    requires Inv(s)
    ensures Inv(Step(s, actor))
  {
    match actor
    case Publish(chunk) => PublisherKeeps(s, chunk);
    case Sweep(i) => if i < |s.sweepers| { SweeperKeeps(s, i); }
    case Arrive =>
    case Crash =>
  }

  lemma {:induction false} EveryRunKeeps(s: State, actors: seq<Actor>)
    requires Init(s)
    ensures Inv(Run(s, actors)) && Run(s, actors).target == s.target
  {
    if actors != [] {
      EveryRunKeeps(s, actors[..|actors| - 1]);
      StepKeeps(Run(s, actors[..|actors| - 1]), actors[|actors| - 1]);
    }
  }

  /** At every point of every interleaving, crashes included, the destination is absent or whole. */
  lemma DestinationIsAlwaysWhole(s: State, actors: seq<Actor>)
    requires Init(s)
    ensures var names := Run(s, actors).names;
            names.destination.None? || names.destination == Some(Inode(ThePublisher, s.target))
    ensures Run(s, actors).publisher.Published? ==>
              Run(s, actors).names == Names(None, Some(Inode(ThePublisher, s.target)))
  {
    EveryRunKeeps(s, actors);
  }

  // ------------------------------------------------------------- the publisher finishes

  /** The longest way from here to publication, in calls of the publisher. */
  ghost function Progress(p: Publisher, target: Bytes): nat {
    match p
    case Looking => |target| + 14
    case Creating => |target| + 13
    case Writing(offset) => if offset <= |target| then |target| - offset + 12 else 0
    case Checking => 11
    case Linking => 10
    case Inspecting => 9
    case Opening => 8
    case Reading(_) => 7
    case Confirming => 6
    case Unlinking => 5
    case Rechecking => 4
    case Rereading => 3
    case Finishing => 2
    case Leaving => 1
    case _ => 0
  }

  /** How many of the actors are the publisher. */
  ghost function Turns(actors: seq<Actor>): nat {
    if actors == [] then 0 else Turns(actors[..|actors| - 1]) + if actors[|actors| - 1].Publish? then 1 else 0
  }

  /** The two ways a publication fails: nothing to write, or a write that accepts nothing. */
  ghost predicate Fails(s: State, actor: Actor) {
    && actor.Publish?
    && ((s.publisher.Looking? && s.target == [])
        || (s.publisher.Writing? && s.publisher.offset < |s.target| && actor.chunk == 0))
  }

  /** Whatever sweepers have removed in between, these two and no others fail the publisher. */
  lemma PublisherFailsExactly(s: State, actor: Actor)
    requires Inv(s) && !s.publisher.Failed?
    ensures Step(s, actor).publisher.Failed? <==> Fails(s, actor)
  {
  }

  lemma PublisherAdvances(s: State, actor: Actor)
    requires Inv(s) && !actor.Crash? && !Fails(s, actor) && !s.publisher.Failed? && !s.publisher.Crashed?
    ensures actor.Publish? && !s.publisher.Published? ==>
              Progress(Step(s, actor).publisher, s.target) < Progress(s.publisher, s.target)
    ensures !actor.Publish? ==> Step(s, actor).publisher == s.publisher
    ensures !Step(s, actor).publisher.Failed? && !Step(s, actor).publisher.Crashed?
    ensures s.publisher.Published? ==> Step(s, actor).publisher.Published?
  {
    PublisherFailsExactly(s, actor);
  }

  lemma NoProgressLeft(s: State)
    requires Progress(s.publisher, s.target) == 0 && !s.publisher.Failed? && !s.publisher.Crashed? && Inv(s)
    ensures s.publisher.Published?
  {
  }

  /** Nothing crashes, and every write of the publisher accepts something. */
  ghost predicate Smooth(actors: seq<Actor>) {
    forall i | 0 <= i < |actors| :: !actors[i].Crash? && (actors[i].Publish? ==> actors[i].chunk > 0)
  }

  /**
   From wherever it is the publisher publishes within as many of its own calls as are left,
   whatever the sweepers do in between: |target| + 14 from the start, nine once linked.
   */
  lemma {:induction false} PublisherFinishes(s: State, actors: seq<Actor>)
    requires Inv(s) && s.target != [] && !s.publisher.Failed? && !s.publisher.Crashed? && Smooth(actors)
    ensures var t := Run(s, actors);
            && Inv(t) && t.target == s.target && !t.publisher.Failed? && !t.publisher.Crashed?
            && (t.publisher.Published? || Turns(actors) + Progress(t.publisher, t.target) <= Progress(s.publisher, s.target))
            && (Turns(actors) >= Progress(s.publisher, s.target) ==> t.publisher.Published?)
  {
    hide Inv, Step, Progress, Fails;
    if actors != [] {
      var before, last := actors[..|actors| - 1], actors[|actors| - 1];
      PublisherFinishes(s, before);
      var u := Run(s, before);
      StepKeeps(u, last);
      KeepsTarget(u, last);
      NothingToFail(u, last);
      PublisherAdvances(u, last);
    }
    var t := Run(s, actors);
    if Turns(actors) >= Progress(s.publisher, s.target) && !t.publisher.Published? { NoProgressLeft(t); }
  }

  lemma KeepsTarget(s: State, actor: Actor)
    ensures Step(s, actor).target == s.target
  {
  }

  lemma NothingToFail(s: State, actor: Actor)
    requires s.target != [] && (actor.Publish? ==> actor.chunk > 0)
    ensures !Fails(s, actor)
  {
  }

  /** On a name that is taken the publisher writes nothing, and accepts exactly the file it would have published. */
  lemma TakenName(s: State, chunk: nat)
    requires s.publisher.Looking? && s.names.destination.Some?
    ensures var t := PublisherStep(s, chunk);
            && t.names == s.names
            && (t.publisher.Published? <==> s.names == Names(None, Some(Inode(ThePublisher, s.target))))
            && (t.publisher.Published? || t.publisher.Failed?)
  {
  }

  // ------------------------------------------------------------------ the sweepers finish

  /** A sweeper fails exactly if somebody else has removed the temporary it had found. */
  lemma SweeperFailsExactly(s: State, i: nat)
    requires Inv(s) && i < |s.sweepers| && !s.sweepers[i].SweepFailed?
    ensures var at := s.sweepers[i];
            Step(s, Sweep(i)).sweepers[i].SweepFailed? <==>
              && (at.SweepOpenTemporary? || at.SweepReadTemporary? || at.SweepOpenDestination? || at.SweepReadDestination?
                  || at.SweepConfirm? || at.SweepUnlink?)
              && s.names.temporary.None?
  {
    assert SweeperKnows(s, s.sweepers[i]);
  }

  ghost function SweepAlone(s: State, i: nat, steps: nat): State
    decreases steps
  {
    if steps == 0 then s else SweepAlone(Step(s, Sweep(i)), i, steps - 1)
  }

  lemma SweepsOn(s: State, others: seq<Sweeper>, at: Sweeper, steps: nat, names: Names, next: Sweeper)
    requires s.sweepers == others + [at] && steps > 0 && SweeperStep(s.names, at) == (names, next)
    ensures SweepAlone(s, |others|, steps) == SweepAlone(State(s.target, names, s.publisher, others + [next]), |others|, steps - 1)
  {
    assert (others + [at])[|others| := next] == others + [next];
  }

  /**
   Wherever the publisher dies, one sweeper that is left alone finishes: a linked pair becomes
   the published file, and anything else is left as it is.
   */
  lemma CrashIsSwept(s: State)
    requires Inv(s)
    ensures var i := |s.sweepers|;
            var t := SweepAlone(Step(Step(s, Crash), Arrive), i, 9);
            && t.names == Names(if s.names.destination.Some? then None else s.names.temporary, s.names.destination)
            && t.sweepers == s.sweepers + [SweepDone]
            && t.publisher == if s.publisher.Published? then Published else Crashed
  {
    assert s.names.destination.Some? && s.names.temporary.Some? ==> s.names.temporary == s.names.destination;
    hide Inv, PublisherStep;
    var u := Step(Step(s, Crash), Arrive);
    if s.names.destination.Some? && s.names.temporary.Some? {
      PairIsSwept(u.target, u.publisher, s.sweepers, s.names.destination.value);
    } else {
      SweepsOn(u, s.sweepers, SweepStart, 9, u.names, SweepDone);
      StaysDone(State(u.target, u.names, u.publisher, s.sweepers + [SweepDone]), |s.sweepers|, 8);
    }
  }

  lemma {:induction false} StaysDone(s: State, i: nat, steps: nat)
    requires i < |s.sweepers| && s.sweepers[i].SweepDone?
    ensures SweepAlone(s, i, steps) == s
  {
    if steps > 0 {
      assert s.sweepers[i := SweepDone] == s.sweepers;
      StaysDone(s, i, steps - 1);
    }
  }

  lemma PairIsSwept(x: Bytes, p: Publisher, others: seq<Sweeper>, file: Inode)
    ensures SweepAlone(State(x, Names(Some(file), Some(file)), p, others + [SweepStart]), |others|, 9)
         == State(x, Names(None, Some(file)), p, others + [SweepDone])
  {
    var pair := Names(Some(file), Some(file));
    hide Step, SweepAlone;
    SweepsOn(State(x, pair, p, others + [SweepStart]), others, SweepStart, 9, pair, SweepExists);
    SweepsOn(State(x, pair, p, others + [SweepExists]), others, SweepExists, 8, pair, SweepOpenTemporary);
    SweepsOn(State(x, pair, p, others + [SweepOpenTemporary]), others, SweepOpenTemporary, 7, pair, SweepReadTemporary(2));
    SweepsOn(State(x, pair, p, others + [SweepReadTemporary(2)]), others, SweepReadTemporary(2), 6, pair, SweepOpenDestination(file));
    SweepReads(x, p, others, file);
  }

  lemma SweepReads(x: Bytes, p: Publisher, others: seq<Sweeper>, file: Inode)
    ensures SweepAlone(State(x, Names(Some(file), Some(file)), p, others + [SweepOpenDestination(file)]), |others|, 5)
         == State(x, Names(None, Some(file)), p, others + [SweepDone])
  {
    var pair, one := Names(Some(file), Some(file)), Names(None, Some(file));
    hide Step, SweepAlone;
    SweepsOn(State(x, pair, p, others + [SweepOpenDestination(file)]), others, SweepOpenDestination(file), 5, pair,
             SweepReadDestination(file, 2));
    SweepsOn(State(x, pair, p, others + [SweepReadDestination(file, 2)]), others, SweepReadDestination(file, 2), 4, pair,
             SweepConfirm(file));
    SweepsOn(State(x, pair, p, others + [SweepConfirm(file)]), others, SweepConfirm(file), 3, pair, SweepUnlink(file));
    SweepsOn(State(x, pair, p, others + [SweepUnlink(file)]), others, SweepUnlink(file), 2, one, SweepVerify(file));
    SweepsOn(State(x, one, p, others + [SweepVerify(file)]), others, SweepVerify(file), 1, one, SweepDone);
    NothingSwept(State(x, one, p, others + [SweepDone]), |others|);
  }

  lemma NothingSwept(s: State, i: nat)
    ensures SweepAlone(s, i, 0) == s
  {
  }
}
