/**
 The resumable driver itself: a retry-free loop over whatever the inspections show
 (scripts/greater-realm-production-import-core.ts, executeGreaterRealmProductionImport).
 */
module ImportDriver {
  import opened Wrappers
  import opened SnapshotRules
  import opened ImportModel
  import opened ImportGates
  import opened ImportRun
  import opened ImportConforms
  import opened ImportServer

  /** What one round of the loop meets: the inspection before the write, the one after it, the acknowledgement. */
  datatype Turn = Turn(prewrite: Observation, after: Observation, acknowledged: bool)

  datatype Outcome = ReadyNow | AlreadyReady | VerifiedAfterSubmissionError

  datatype Failure =
    | InputInvalid | InspectionInvalid | ReadyPostconditionFailed | PlanRefused(why: Refusal)
    | RejectedOrUncommitted | PostconditionFailed | ExpectedAfterMismatch | OperationLimit

  datatype Result =
    | Receipt(outcome: Outcome, submitted: nat)
    | Failed(code: Failure)
    | Waiting // the turns given have run out; the source waits for the next inspection

  /** A submitted operation with the inspections on its two sides. */
  datatype Submission = Submission(operation: Operation, before: Observation, after: Observation)

  ghost predicate WasAccepted(step: Submission, a: Authority, journaled: bool) {
    && Accepted(step.operation, step.before, step.after, a)
    && (journaled ==> GateHolds(ExpectedAfter(step.operation, step.before, a), step.before, step.after))
  }

  // ------------------------------------------------------------------ the quiet server

  ghost function Seen(start: Observation, turns: seq<Turn>, i: nat): Observation
    requires i <= |turns|
  {
    if i == 0 then start else turns[i - 1].after
  }

  /**
   Nobody else writes, and every submitted operation takes effect as its postcondition says;
   under a journal it is one whose two gates agree, and it leaves the rest of the cutover status
   alone.
   */
  ghost predicate QuietTurn(turn: Turn, seen: Observation, a: Authority, journaled: bool) {
    && turn.prewrite == seen
    && match PlanNext(seen.status, a)
       case Submit(op) =>
         && Accepted(op, seen, turn.after, a)
         && (journaled ==> Journalable(op) && Framed(op, seen.cutover, turn.after.cutover))
       case _ => true
  }

  ghost predicate Quiet(start: Observation, turns: seq<Turn>, a: Authority, journaled: bool) {
    forall i | 0 <= i < |turns| :: QuietTurn(turns[i], Seen(start, turns, i), a, journaled)
  }

  ghost predicate Unacknowledged(turns: seq<Turn>, n: nat) {
    exists i | 0 <= i < n && i < |turns| :: !turns[i].acknowledged
  }

  /**
   What the driver must return against a quiet server, given turns enough. The state before
   the last operation decides whether that operation can be planned at all.
   */
  ghost predicate ExactlyBounded(start: Observation, turns: seq<Turn>, a: Authority, maximum: nat, result: Result, submissions: nat)
    requires |turns| >= Remaining(start.status, a)
  {
    var needed := Remaining(start.status, a);
    if needed == 0 then result == Receipt(AlreadyReady, 0) && submissions == 0
    else if needed > maximum then result == Failed(OperationLimit) && submissions == maximum
    else if Unfinalizable(Seen(start, turns, needed - 1).status) then
      result == Failed(PlanRefused(VerifyDigestInvalid)) && submissions == needed - 1
    else
      && result == Receipt(if Unacknowledged(turns, needed) then VerifiedAfterSubmissionError else ReadyNow, needed)
      && submissions == needed
  }

  ghost predicate BoundApplies(start: Observation, turns: seq<Turn>, a: Authority, journaled: bool) {
    SumConsistent(a) && Bound(start, a) && Consistent(start.status, a) && Quiet(start, turns, a, journaled)
  }

  lemma UnacknowledgedStep(turns: seq<Turn>, n: nat)
    requires n < |turns|
    ensures Unacknowledged(turns, n + 1) <==> Unacknowledged(turns, n) || !turns[n].acknowledged
  {
  }

  datatype Round = Stale | Stop(code: Failure) | Advanced(step: Submission)

  // ------------------------------------------------------------------ any server at all

  /** When a round stops, and with which code. */
  ghost predicate StopsWith(op: Operation, turn: Turn, a: Authority, journaled: bool, code: Failure) {
    var stands, met := PlanNext(turn.prewrite.status, a) == Submit(op), Postcondition(op, turn.prewrite, turn.after, a);
    match code
    case InspectionInvalid => !Bound(turn.prewrite, a) || (stands && !Bound(turn.after, a))
    case PostconditionFailed => Bound(turn.prewrite, a) && stands && Bound(turn.after, a) && !met && turn.acknowledged
    case RejectedOrUncommitted => Bound(turn.prewrite, a) && stands && Bound(turn.after, a) && !met && !turn.acknowledged
    case ExpectedAfterMismatch =>
      && Bound(turn.prewrite, a) && stands && Bound(turn.after, a) && met
      && journaled && !GateHolds(ExpectedAfter(op, turn.prewrite, a), turn.prewrite, turn.after)
    case _ => false
  }

  /** What the driver goes by after `i` turns: what its last write left, or the inspection that overtook its plan. */
  ghost function Known(start: Observation, turns: seq<Turn>, a: Authority, i: nat): Observation
    requires i <= |turns|
  {
    if i == 0 then start
    else if PlanNext(turns[i - 1].prewrite.status, a) == PlanNext(Known(start, turns, a, i - 1).status, a) then turns[i - 1].after
    else turns[i - 1].prewrite
  }

  /** The turns among the first `i` that wrote: those whose inspection confirmed the plan. */
  ghost function Landed(start: Observation, turns: seq<Turn>, a: Authority, i: nat): (landed: seq<nat>)
    requires i <= |turns|
    ensures |landed| <= i && forall k | 0 <= k < |landed| :: landed[k] < i
  {
    if i == 0 then []
    else if PlanNext(turns[i - 1].prewrite.status, a) == PlanNext(Known(start, turns, a, i - 1).status, a)
    then Landed(start, turns, a, i - 1) + [i - 1]
    else Landed(start, turns, a, i - 1)
  }

  /** Turn `i` was reached and passed: there was something to plan and room for it, and what was written was accepted. */
  ghost predicate Passed(start: Observation, turns: seq<Turn>, a: Authority, maximum: nat, journaled: bool, i: nat)
    requires i < |turns|
  {
    var plan := PlanNext(Known(start, turns, a, i).status, a);
    && plan.Submit? && |Landed(start, turns, a, i)| < maximum && Bound(turns[i].prewrite, a)
    && (PlanNext(turns[i].prewrite.status, a) == plan ==>
          WasAccepted(Submission(plan.operation, turns[i].prewrite, turns[i].after), a, journaled))
  }

  ghost predicate WithoutAck(start: Observation, turns: seq<Turn>, a: Authority, i: nat)
    requires i <= |turns|
  {
    exists j | 0 <= j < i :: j in Landed(start, turns, a, i) && !turns[j].acknowledged
  }

  /** The driver passed `used` turns, wrote in `submitted` of them, and then had to return `result`. */
  ghost predicate EndsAt(start: Observation, turns: seq<Turn>, a: Authority, maximum: nat, journaled: bool, ready: Observation -> bool,
                         used: nat, last: Observation, submitted: nat, result: Result)
  {
    && used <= |turns| && last == Known(start, turns, a, used) && submitted == |Landed(start, turns, a, used)|
    && (forall i | 0 <= i < used :: Passed(start, turns, a, maximum, journaled, i))
    && match result
       case Receipt(outcome, n) =>
         && n == submitted && ready(last)
         && outcome == (if ready(start) then AlreadyReady
                        else if WithoutAck(start, turns, a, used) then VerifiedAfterSubmissionError else ReadyNow)
       case Waiting => used == |turns| && submitted < maximum && PlanNext(last.status, a).Submit?
       case Failed(code) =>
         match code
         case InputInvalid => used == 0 && (maximum < 1 || maximum > MAXIMUM_OPERATIONS)
         case OperationLimit => submitted == maximum && !ready(last)
         case PlanRefused(why) => submitted < maximum && PlanNext(last.status, a) == Refuse(why)
         case ReadyPostconditionFailed => submitted < maximum && PlanNext(last.status, a).Finished? && !ready(last)
         case _ =>
           || (code == InspectionInvalid && used == 0 && !Bound(start, a))
           || (&& used < |turns| && submitted < maximum && PlanNext(last.status, a).Submit?
               && StopsWith(PlanNext(last.status, a).operation, turns[used], a, journaled, code))
  }

  /** Where the loop stands after `next` turns. */
  ghost predicate OnTrack(start: Observation, turns: seq<Turn>, a: Authority, maximum: nat, journaled: bool,
                          next: nat, last: Observation, submitted: nat, recovered: bool)
  {
    && next <= |turns| && last == Known(start, turns, a, next) && submitted == |Landed(start, turns, a, next)| <= maximum
    && (forall i | 0 <= i < next :: Passed(start, turns, a, maximum, journaled, i))
    && recovered == WithoutAck(start, turns, a, next)
  }

  lemma StartsOnTrack(start: Observation, turns: seq<Turn>, a: Authority, maximum: nat, journaled: bool)
    ensures OnTrack(start, turns, a, maximum, journaled, 0, start, 0, false)
  {
  }

  /** One round that did not stop. */
  lemma StaysOnTrack(start: Observation, turns: seq<Turn>, a: Authority, maximum: nat, journaled: bool,
                     next: nat, last: Observation, submitted: nat, recovered: bool)
    requires OnTrack(start, turns, a, maximum, journaled, next, last, submitted, recovered)
    requires next < |turns| && Passed(start, turns, a, maximum, journaled, next)
    ensures var turn := turns[next];
            if PlanNext(turn.prewrite.status, a) == PlanNext(last.status, a)
            then OnTrack(start, turns, a, maximum, journaled, next + 1, turn.after, submitted + 1, recovered || !turn.acknowledged)
            else OnTrack(start, turns, a, maximum, journaled, next + 1, turn.prewrite, submitted, recovered)
  {
    hide PlanNext, WasAccepted;
    var landed, more := Landed(start, turns, a, next), Landed(start, turns, a, next + 1);
    if PlanNext(turns[next].prewrite.status, a) == PlanNext(last.status, a) {
      assert more == landed + [next];
      assert next in more && forall j | 0 <= j < next :: j in more <==> j in landed;
    } else {
      assert more == landed;
    }
  }

  /** A round that did not stop has passed. */
  lemma RoundPasses(start: Observation, turns: seq<Turn>, a: Authority, maximum: nat, journaled: bool,
                    next: nat, last: Observation, submitted: nat, recovered: bool)
    requires OnTrack(start, turns, a, maximum, journaled, next, last, submitted, recovered)
    requires next < |turns| && submitted < maximum && PlanNext(last.status, a).Submit?
    requires forall code :: !StopsWith(PlanNext(last.status, a).operation, turns[next], a, journaled, code)
    ensures var turn := turns[next];
            if PlanNext(turn.prewrite.status, a) == PlanNext(last.status, a)
            then OnTrack(start, turns, a, maximum, journaled, next + 1, turn.after, submitted + 1, recovered || !turn.acknowledged)
            else OnTrack(start, turns, a, maximum, journaled, next + 1, turn.prewrite, submitted, recovered)
  {
    hide PlanNext, Bound, Postcondition, GateHolds, ExpectedAfter, Landed, WithoutAck;
    var op, turn := PlanNext(last.status, a).operation, turns[next];
    assert !StopsWith(op, turn, a, journaled, InspectionInvalid) && !StopsWith(op, turn, a, journaled, ExpectedAfterMismatch);
    assert !StopsWith(op, turn, a, journaled, PostconditionFailed) && !StopsWith(op, turn, a, journaled, RejectedOrUncommitted);
    StaysOnTrack(start, turns, a, maximum, journaled, next, last, submitted, recovered);
  }

  /** Any result that what is known here calls for may be returned here. */
  lemma EndsOnTrack(start: Observation, turns: seq<Turn>, a: Authority, maximum: nat, journaled: bool, ready: Observation -> bool,
                    next: nat, last: Observation, submitted: nat, recovered: bool)
    requires OnTrack(start, turns, a, maximum, journaled, next, last, submitted, recovered)
    ensures maximum < 1 || maximum > MAXIMUM_OPERATIONS ==>
              (next == 0 ==> EndsAt(start, turns, a, maximum, journaled, ready, next, last, submitted, Failed(InputInvalid)))
    ensures !Bound(start, a) && next == 0 ==>
              EndsAt(start, turns, a, maximum, journaled, ready, next, last, submitted, Failed(InspectionInvalid))
    ensures ready(last) ==>
              EndsAt(start, turns, a, maximum, journaled, ready, next, last, submitted,
                     Receipt(if ready(start) then AlreadyReady
                             else if recovered then VerifiedAfterSubmissionError else ReadyNow, submitted))
    ensures submitted < maximum && PlanNext(last.status, a).Refuse? ==>
              EndsAt(start, turns, a, maximum, journaled, ready, next, last, submitted,
                     Failed(PlanRefused(PlanNext(last.status, a).why)))
    ensures submitted < maximum && PlanNext(last.status, a).Finished? && !ready(last) ==>
              EndsAt(start, turns, a, maximum, journaled, ready, next, last, submitted, Failed(ReadyPostconditionFailed))
    ensures submitted == maximum && !ready(last) ==>
              EndsAt(start, turns, a, maximum, journaled, ready, next, last, submitted, Failed(OperationLimit))
    ensures next == |turns| && submitted < maximum && PlanNext(last.status, a).Submit? ==>
              EndsAt(start, turns, a, maximum, journaled, ready, next, last, submitted, Waiting)
    ensures next < |turns| && submitted < maximum && PlanNext(last.status, a).Submit? ==>
              forall code | StopsWith(PlanNext(last.status, a).operation, turns[next], a, journaled, code) ::
                EndsAt(start, turns, a, maximum, journaled, ready, next, last, submitted, Failed(code))
  {
    hide Bound, PlanNext, Passed, WithoutAck, Known, Landed, Postcondition, GateHolds, ExpectedAfter;
  }

  /** One round: a fresh inspection, the same plan again, the write, the proofs on what it did. */
  method PlayRound(a: Authority, op: Operation, turn: Turn, journaled: bool) returns (round: Round)
    ensures round.Stale? <==> Bound(turn.prewrite, a) && PlanNext(turn.prewrite.status, a) != Submit(op)
    ensures round.Advanced? <==> WasAccepted(Submission(op, turn.prewrite, turn.after), a, journaled)
    ensures round.Advanced? ==> round.step == Submission(op, turn.prewrite, turn.after) && PlanNext(turn.prewrite.status, a) == Submit(op)
    ensures forall code :: round == Stop(code) <==> StopsWith(op, turn, a, journaled, code)
  {
    hide Bound, PlanNext, Postcondition, GateHolds, ExpectedAfter;
    if !Bound(turn.prewrite, a) { return Stop(InspectionInvalid); }
    if PlanNext(turn.prewrite.status, a) != Submit(op) { return Stale; }
    if !Bound(turn.after, a) { return Stop(InspectionInvalid); }
    if !Postcondition(op, turn.prewrite, turn.after, a) {
      return Stop(if turn.acknowledged then PostconditionFailed else RejectedOrUncommitted);
    }
    if journaled && !GateHolds(ExpectedAfter(op, turn.prewrite, a), turn.prewrite, turn.after) {
      return Stop(ExpectedAfterMismatch);
    }
    round := Advanced(Submission(op, turn.prewrite, turn.after));
  }

  /** Where the loop stands against a quiet server after `done` rounds. */
  ghost predicate OnCourse(start: Observation, turns: seq<Turn>, a: Authority, done: nat, last: Observation, recovered: bool) {
    && done <= |turns| && last == Seen(start, turns, done)
    && Consistent(last.status, a) && !ReadyPostcondition(last.status, a)
    && Remaining(start.status, a) == done + Remaining(last.status, a)
    && recovered == Unacknowledged(turns, done)
  }

  /** A quiet round advances the course by one. */
  lemma QuietAdvances(start: Observation, turns: seq<Turn>, a: Authority, done: nat, last: Observation, op: Operation, journaled: bool)
    requires SumConsistent(a) && Quiet(start, turns, a, journaled) && done < |turns| && last == Seen(start, turns, done)
    requires Consistent(last.status, a) && PlanNext(last.status, a) == Submit(op)
    ensures WasAccepted(Submission(op, turns[done].prewrite, turns[done].after), a, journaled)
    ensures Consistent(turns[done].after.status, a)
    ensures Remaining(last.status, a) == 1 + Remaining(turns[done].after.status, a)
    ensures Remaining(turns[done].after.status, a) == 0 <==> ReadyPostcondition(turns[done].after.status, a)
  {
    hide Accepted, Consistent, Remaining, SumConsistent, PlanNext, ReadyPostcondition, GateHolds, ExpectedAfter, Framed;
    assert QuietTurn(turns[done], Seen(start, turns, done), a, journaled);
    if journaled { JournaledPasses(op, last, turns[done].after, a); }
    AcceptedCounts(op, last, turns[done].after, a);
    ConsistentIsPlannable(turns[done].after.status, a);
  }

  ghost function Readiness(a: Authority): Observation -> bool {
    (o: Observation) => ReadyPostcondition(o.status, a)
  }

  /** `executeGreaterRealmProductionImport` */
  method Execute(a: Authority, start: Observation, turns: seq<Turn>, maximum: nat, journaled: bool)
    returns (result: Result, steps: seq<Submission>, last: Observation)
    requires ValidAuthority(a)
    ensures |steps| <= maximum
    ensures maximum < 1 || maximum > 4096 ==> result == Failed(InputInvalid)
    ensures forall i | 0 <= i < |steps| :: WasAccepted(steps[i], a, journaled)
    ensures result.Receipt? ==>
              && result.submitted == |steps|
              && (result.outcome == AlreadyReady <==> ReadyPostcondition(start.status, a))
              && Bound(last, a) && ReadyPostcondition(last.status, a)
    ensures exists used :: EndsAt(start, turns, a, maximum, journaled, Readiness(a), used, last, |steps|, result)
    ensures 1 <= maximum <= MAXIMUM_OPERATIONS && BoundApplies(start, turns, a, journaled)
            && |turns| >= Remaining(start.status, a) ==>
              ExactlyBounded(start, turns, a, maximum, result, |steps|)
  {
    hide Accepted, WasAccepted, Consistent, Remaining, SumConsistent, Bound, PlanNext, ReadyPostcondition, Quiet, Unacknowledged;
    hide OnTrack, Passed, WithoutAck, StopsWith, Known, Landed, EndsAt, Postcondition, GateHolds, ExpectedAfter, Framed;
    steps, last := [], start;
    StartsOnTrack(start, turns, a, maximum, journaled);
    EndsOnTrack(start, turns, a, maximum, journaled, Readiness(a), 0, start, 0, false);
    if maximum < 1 || maximum > MAXIMUM_OPERATIONS { return Failed(InputInvalid), [], last; }
    if !Bound(start, a) { return Failed(InspectionInvalid), [], last; }
    ghost var exact := BoundApplies(start, turns, a, journaled) && |turns| >= Remaining(start.status, a);
    if exact { ConsistentIsPlannable(start.status, a); }
    if ReadyPostcondition(start.status, a) { return Receipt(AlreadyReady, 0), [], last; }

    var recovered, next := false, 0;
    NoneUnacknowledged(turns);
    while |steps| < maximum
      invariant next <= |turns| && |steps| <= maximum && Bound(last, a)
      invariant forall i | 0 <= i < |steps| :: WasAccepted(steps[i], a, journaled)
      invariant OnTrack(start, turns, a, maximum, journaled, next, last, |steps|, recovered)
      invariant |steps| < maximum || !ReadyPostcondition(last.status, a)
      invariant exact ==> next == |steps| && OnCourse(start, turns, a, next, last, recovered)
      decreases |turns| - next
    {
      EndsOnTrack(start, turns, a, maximum, journaled, Readiness(a), next, last, |steps|, recovered);
      if exact { ConsistentIsPlannable(last.status, a); }
      var plan := PlanNext(last.status, a);
      if plan.Finished? {
        if !ReadyPostcondition(last.status, a) { return Failed(ReadyPostconditionFailed), steps, last; }
        return Receipt(if recovered then VerifiedAfterSubmissionError else ReadyNow, |steps|), steps, last;
      }
      if plan.Refuse? { return Failed(PlanRefused(plan.why)), steps, last; }
      if next == |turns| { return Waiting, steps, last; }
      var turn := turns[next];
      if exact {
        QuietAdvances(start, turns, a, next, last, plan.operation, journaled);
        UnacknowledgedStep(turns, next);
      }
      var round := PlayRound(a, plan.operation, turn, journaled);
      match round
      case Stop(code) => return Failed(code), steps, last;
      case Stale =>
        RoundPasses(start, turns, a, maximum, journaled, next, last, |steps|, recovered);
        last := turn.prewrite;
        next := next + 1;
      case Advanced(step) =>
        AcceptedIsBound(step, a, journaled);
        RoundPasses(start, turns, a, maximum, journaled, next, last, |steps|, recovered);
        steps, last, recovered := steps + [step], turn.after, recovered || !turn.acknowledged;
        next := next + 1;
        EndsOnTrack(start, turns, a, maximum, journaled, Readiness(a), next, last, |steps|, recovered);
        if ReadyPostcondition(last.status, a) {
          return Receipt(if recovered then VerifiedAfterSubmissionError else ReadyNow, |steps|), steps, last;
        }
    }
    if exact { ConsistentIsPlannable(last.status, a); }
    EndsOnTrack(start, turns, a, maximum, journaled, Readiness(a), next, last, |steps|, recovered);
    result := Failed(OperationLimit);
  }

  lemma NoneUnacknowledged(turns: seq<Turn>)
    ensures !Unacknowledged(turns, 0)
  {
  }

  lemma AcceptedIsBound(step: Submission, a: Authority, journaled: bool)
    requires WasAccepted(step, a, journaled)
    ensures Bound(step.after, a)
  {
  }

  /** With a journal no chunk is ever accepted, nor a stage of a release that has regions. */
  lemma JournaledRunsStopAtChunks(step: Submission, a: Authority)
    requires ValidAuthority(a) && WasAccepted(step, a, true)
    ensures !step.operation.ImportChunk?
    ensures step.operation.Stage? ==> a.totals.regions == 0
  {
    hide GateHolds, ExpectedAfter, PlanNext, ImportOnly, AuthorityAgrees;
    match step.operation
    case ImportChunk(chunk) => ChunkGatesClash(chunk, step.before, step.after, a);
    case Stage => StagePlanned(step, a); StageClashes(step.before, step.after, a);
    case _ =>
  }

  lemma StagePlanned(step: Submission, a: Authority)
    requires step.operation.Stage? && WasAccepted(step, a, true)
    ensures !step.before.status.present && Bound(step.before, a) && StagePasses(step.before, step.after, a)
  {
    hide GateHolds, ExpectedAfter, ImportOnly, AuthorityAgrees, StagePost;
  }

  lemma JournaledPasses(op: Operation, before: Observation, after: Observation, a: Authority)
    requires Journalable(op) && Accepted(op, before, after, a) && Framed(op, before.cutover, after.cutover)
    ensures GateHolds(ExpectedAfter(op, before, a), before, after)
  {
    hide Bound, Postcondition, GateHolds, ExpectedAfter, Framed;
    ConformingPasses(op, before, after, a);
  }

  /** With a journal too every planned operation but stage and chunk can be answered so that all proofs pass. */
  lemma JournaledPlanHasAnAnswer(op: Operation, before: Observation, a: Authority)
    requires Journalable(op) && Answerable(op, before, a)
    ensures exists after :: WasAccepted(Submission(op, before, after), a, true)
  {
    hide Answerable, Accepted, GateHolds, ExpectedAfter, Framed;
    EveryPlanHasAnAnswer(op, before, a);
    var after :| Answers(op, before, after, a);
    JournaledPasses(op, before, after, a);
    assert WasAccepted(Submission(op, before, after), a, true);
  }
}
