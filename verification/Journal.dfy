/** Journal entries and the fold that validates a whole operation history. */
module Journal {
  import opened Common
  import opened Text
  import opened Operation
  import opened Contracts

  const JOURNAL_SCHEMA := "JournalEntryV1"

  datatype EntryKind = Transition | Step | CancellationRequest
  datatype StepOutcome = StepDone | StepFailed | StepUnknown
  datatype MutationObservation = NotOccurred | Occurred | Unknown
  datatype JournalStep = JournalStep(
    id: string, outcome: StepOutcome, executingIdentity: ExecutionIdentity, attempt: uint32,
    startedAt: Time, endedAt: Option<Time>, mutationOccurred: bool)

  datatype JournalPause = JournalPause(
    pausedAt: Time, pauseReason: string, mutationOccurred: bool, resumeBy: Time, reapprovalRequired: bool)

  datatype JournalCancellation = JournalCancellation(
    requestedAt: Time, currentStepID: string, executionContractHash: string,
    mutationObservation: MutationObservation, requiredRoute: OperationState)

  datatype JournalEntry = JournalEntry(
    schema: string, operationID: string, planID: string, contractHash: string, sequence: nat,
    kind: EntryKind, recordedAt: Time, operationState: OperationState,
    step: Option<JournalStep>, pause: Option<JournalPause>, cancellation: Option<JournalCancellation>)

  // ----- One entry -----

  predicate ValidStep(step: JournalStep, recordedAt: Time) {
    && IsStepID(step.id)
    && step.executingIdentity.Known()
    && step.attempt != 0
    && step.startedAt.Canonical()
    && !recordedAt.Before(step.startedAt)
    && match step.endedAt
       case None => step.outcome.StepUnknown?
       case Some(endedAt) => endedAt.Canonical() && !endedAt.Before(step.startedAt) && !recordedAt.Before(endedAt)
  }

  predicate ValidPause(pause: JournalPause, recordedAt: Time) {
    && pause.pausedAt.Canonical()
    && !recordedAt.Before(pause.pausedAt)
    && pause.pauseReason != ""
    && pause.resumeBy.Canonical()
    && pause.resumeBy.After(pause.pausedAt)
  }

  /** The route a request must name for what it observed. */
  function CancellationTarget(mutationMayHaveOccurred: bool): OperationState {
    if mutationMayHaveOccurred then Rollback else Cancelled
  }

  predicate ValidCancellation(request: JournalCancellation, recordedAt: Time, contractHash: string) {
    && request.requestedAt.Canonical()
    && request.requestedAt.Equal(recordedAt)
    && IsStepID(request.currentStepID)
    && IsDigest(request.executionContractHash)
    && request.executionContractHash == contractHash
    && request.requiredRoute == CancellationTarget(!request.mutationObservation.NotOccurred?)
  }

  predicate ValidEntry(entry: JournalEntry) {
    && entry.schema == JOURNAL_SCHEMA
    && IsOperationID(entry.operationID)
    && IsPlanID(entry.planID)
    && IsDigest(entry.contractHash)
    && entry.sequence != 0
    && entry.recordedAt.Canonical()
    && match entry.kind
       case Transition =>
         && entry.step.None?
         && (if entry.operationState.Paused?
             then entry.pause.Some? && ValidPause(entry.pause.value, entry.recordedAt)
             else entry.pause.None?)
         && entry.cancellation.None?
       case Step =>
         && entry.step.Some? && entry.pause.None? && entry.cancellation.None?
         && ValidStep(entry.step.value, entry.recordedAt)
       case CancellationRequest =>
         && entry.step.None? && entry.pause.None? && entry.cancellation.Some?
         && ValidCancellation(entry.cancellation.value, entry.recordedAt, entry.contractHash)
  }

  // ----- The fold -----

  /** What the validator remembers between two entries. */
  datatype Fold = Fold(
    machine: Option<OperationState>, previousTime: Time,
    attempts: map<string, uint32>, completed: set<string>,
    mutation: bool, paused: Option<JournalPause>,
    pending: Option<OperationState>, pendingStep: string, pendingBoundary: Time, pendingRequestedAt: Time)

  const BLANK := Fold(None, ZERO_TIME, map[], {}, false, None, None, "", ZERO_TIME, ZERO_TIME)

  predicate StepMayMutate(step: JournalStep) {
    step.mutationOccurred || step.outcome.StepUnknown?
  }

  ghost function AdvanceRequest(f: Fold, e: JournalEntry): Option<Fold>
    requires ValidEntry(e) && e.kind.CancellationRequest?
  {
    if f.machine != Some(e.operationState) || f.pending.Some? then None
    else
      var request := e.cancellation.value;
      if f.mutation && request.mutationObservation.NotOccurred? then None
      else if !RouteReachable(e.operationState, request.requiredRoute) then None
      else Some(f.(previousTime := e.recordedAt,
                   mutation := f.mutation || !request.mutationObservation.NotOccurred?,
                   pending := Some(request.requiredRoute),
                   pendingStep := request.currentStepID,
                   pendingBoundary := f.previousTime,
                   pendingRequestedAt := request.requestedAt))
  }

  ghost predicate MayLeave(f: Fold, e: JournalEntry)
    requires f.machine.Some?
  {
    var state := f.machine.value;
    && !(f.pending.Some? && CanTransition(state, f.pending.value) && e.operationState != f.pending.value)
    && (state.Paused? ==>
          && f.paused.Some?
          && (e.operationState.Discover? ==>
                e.recordedAt.Before(f.paused.value.resumeBy) && !f.paused.value.reapprovalRequired))
    && !(e.operationState.Cancelled? && f.mutation)
    && CanTransition(state, e.operationState)
  }

  ghost function AdvanceTransition(f: Fold, e: JournalEntry): Option<Fold>
    requires ValidEntry(e) && e.kind.Transition?
  {
    if f.machine.None? then
      if e.operationState.Discover? then Some(f.(machine := Some(Discover), previousTime := e.recordedAt)) else None
    else if !MayLeave(f, e) then None
    else
      var taken := f.pending == Some(e.operationState);
      if f.pending.Some? && !taken && !RouteReachable(e.operationState, f.pending.value) then None
      else if e.pause.Some? && f.mutation && !e.pause.value.mutationOccurred then None
      else
        var mutation := f.mutation || (e.pause.Some? && e.pause.value.mutationOccurred);
        var pending := if taken then None else f.pending;
        Some(f.(machine := Some(e.operationState), previousTime := e.recordedAt,
                mutation := mutation, paused := e.pause,
                pending := if e.pause.Some? && pending.Some? && mutation then Some(Rollback) else pending,
                pendingStep := if f.pending.Some? then "" else f.pendingStep,
                pendingBoundary := if f.pending.Some? then ZERO_TIME else f.pendingBoundary,
                pendingRequestedAt := if f.pending.Some? then ZERO_TIME else f.pendingRequestedAt))
  }

  function Attempts(attempts: map<string, uint32>, id: string): uint32 {
    if id in attempts then attempts[id] else 0
  }

  ghost predicate StepFits(f: Fold, e: JournalEntry, step: JournalStep) {
    && f.machine == Some(e.operationState)
    && !e.operationState.Paused?
    && (f.pending.Some? ==>
          && !(f.pendingStep == "" && CanTransition(e.operationState, f.pending.value))
          && (f.pendingStep != "" ==> step.id == f.pendingStep && !step.startedAt.After(f.pendingRequestedAt)))
    && !step.startedAt.Before(if f.pendingStep != "" then f.pendingBoundary else f.previousTime)
    && step.id !in f.completed
    && step.attempt == (Attempts(f.attempts, step.id) + 1) % TWO_TO_32
  }

  ghost function AdvanceStep(f: Fold, e: JournalEntry): Option<Fold>
    requires ValidEntry(e) && e.kind.Step?
  {
    var step := e.step.value;
    if !StepFits(f, e, step) then None
    else
      var mutation := f.mutation || StepMayMutate(step);
      Some(f.(previousTime := e.recordedAt,
              attempts := f.attempts[step.id := step.attempt],
              completed := if step.outcome.StepDone? then f.completed + {step.id} else f.completed,
              mutation := mutation,
              pending := if f.pending.Some? && mutation then Some(Rollback) else f.pending,
              pendingStep := "", pendingBoundary := ZERO_TIME, pendingRequestedAt := ZERO_TIME))
  }

  ghost predicate Continues(f: Fold, first: JournalEntry, index: nat, e: JournalEntry) {
    && ValidEntry(e)
    && e.sequence == index + 1
    && e.operationID == first.operationID && e.planID == first.planID && e.contractHash == first.contractHash
    && (f.previousTime.IsZero() || !e.recordedAt.Before(f.previousTime))
    && !(f.machine.Some? && f.machine.value.Terminal())
  }

  ghost function Advance(f: Fold, first: JournalEntry, index: nat, e: JournalEntry): Option<Fold> {
    if !Continues(f, first, index, e) then None
    else match e.kind
      case CancellationRequest => AdvanceRequest(f, e)
      case Transition => AdvanceTransition(f, e)
      case Step => AdvanceStep(f, e)
  }

  ghost function Replay(entries: seq<JournalEntry>): Option<Fold> {
    if entries == [] then Some(BLANK)
    else
      var last := |entries| - 1;
      match Replay(entries[..last])
      case None => None
      case Some(f) => Advance(f, entries[0], last, entries[last])
  }

  ghost predicate Accepted(entries: seq<JournalEntry>) {
    entries != [] && Replay(entries).Some?
  }

  /** Replaying one entry further is one step of the fold. */
  lemma ReplayStep(entries: seq<JournalEntry>, k: nat)
    requires k < |entries|
    ensures Replay(entries[..k + 1]) ==
            match Replay(entries[..k]) case None => None case Some(f) => Advance(f, entries[0], k, entries[k])
  {
    assert entries[..k + 1][..k] == entries[..k];
  }

  /** Nothing appended to a refused history repairs it. */
  lemma {:induction false} PrefixAccepted(entries: seq<JournalEntry>, k: nat)
    requires k <= |entries| && Replay(entries).Some?
    ensures Replay(entries[..k]).Some?
    decreases |entries|
  {
    if k == |entries| {
      assert entries[..k] == entries;
    } else {
      PrefixAccepted(entries[..|entries| - 1], k);
      assert entries[..|entries| - 1][..k] == entries[..k];
    }
  }

  lemma RejectedForGood(entries: seq<JournalEntry>, k: nat)
    requires k <= |entries|
    ensures Replay(entries[..k]).None? ==> !Accepted(entries)
  {
    if Accepted(entries) {
      PrefixAccepted(entries, k);
    }
  }

  /** The request branch of the loop below, over the locals it reads and writes. */
  method TakeRequest(entry: JournalEntry, machine: Machine?, mutation: bool, pending: Option<OperationState>,
                     ghost f: Fold)
    returns (ok: bool, mutation': bool, pending': Option<OperationState>)
    requires ValidEntry(entry) && entry.kind.CancellationRequest?
    requires f.machine == (if machine == null then None else Some(machine.state))
    requires f.mutation == mutation && f.pending == pending
    ensures AdvanceRequest(f, entry) ==
            if ok then Some(f.(previousTime := entry.recordedAt, mutation := mutation', pending := pending',
                               pendingStep := entry.cancellation.value.currentStepID,
                               pendingBoundary := f.previousTime,
                               pendingRequestedAt := entry.cancellation.value.requestedAt))
            else None
  {
    var request := entry.cancellation.value;
    mutation', pending' := mutation, pending;
    if machine == null || entry.operationState != machine.state || pending.Some? {
      return false, mutation', pending';
    }
    if mutation && request.mutationObservation.NotOccurred? {
      return false, mutation', pending';
    }
    mutation' := mutation || !request.mutationObservation.NotOccurred?;
    pending' := Some(request.requiredRoute);
    ok := CancellationRouteReachable(machine.state, request.requiredRoute);
  }

  /** The checks a transition passes before the machine moves. */
  method TransitionAllowed(entry: JournalEntry, machine: Machine, mutation: bool, paused: Option<JournalPause>,
                           pending: Option<OperationState>, ghost f: Fold)
    returns (ok: bool)
    requires f.machine == Some(machine.state)
    requires f.mutation == mutation && f.pending == pending && f.paused == paused
    ensures MayLeave(f, entry) <==> ok && CanTransition(machine.state, entry.operationState)
  {
    if pending.Some? && CanTransition(machine.state, pending.value) && entry.operationState != pending.value {
      return false;
    }
    if machine.state.Paused? {
      if paused.None? {
        return false;
      }
      if entry.operationState.Discover? && !entry.recordedAt.Before(paused.value.resumeBy) {
        return false;
      }
      if entry.operationState.Discover? && paused.value.reapprovalRequired {
        return false;
      }
    }
    return !(entry.operationState.Cancelled? && mutation);
  }

  /** The transition branch once the machine exists. */
  method TakeTransition(entry: JournalEntry, machine: Machine, mutation: bool, paused: Option<JournalPause>,
                        pending: Option<OperationState>, ghost f: Fold)
    returns (ok: bool, mutation': bool, pending': Option<OperationState>)
    requires ValidEntry(entry) && entry.kind.Transition?
    requires f.machine == Some(machine.state)
    requires f.mutation == mutation && f.pending == pending && f.paused == paused
    modifies machine
    ensures AdvanceTransition(f, entry) ==
            if ok then Some(f.(machine := Some(machine.state), previousTime := entry.recordedAt,
                               mutation := mutation', paused := entry.pause, pending := pending',
                               pendingStep := if pending.Some? then "" else f.pendingStep,
                               pendingBoundary := if pending.Some? then ZERO_TIME else f.pendingBoundary,
                               pendingRequestedAt := if pending.Some? then ZERO_TIME else f.pendingRequestedAt))
            else None
  {
    mutation', pending' := mutation, pending;
    var allowed := TransitionAllowed(entry, machine, mutation, paused, pending, f);
    if !allowed {
      return false, mutation', pending';
    }
    var moved: bool;
    if entry.operationState.Cancelled? {
      moved := machine.Advance(entry.operationState, true);
    } else {
      moved := machine.Transition(entry.operationState);
    }
    if !moved {
      return false, mutation', pending';
    }
    if pending == Some(entry.operationState) {
      pending' := None;
    } else if pending.Some? {
      var reachable := CancellationRouteReachable(machine.state, pending.value);
      if !reachable {
        return false, mutation', pending';
      }
    }
    if entry.pause.Some? {
      if mutation && !entry.pause.value.mutationOccurred {
        return false, mutation', pending';
      }
      mutation' := mutation || entry.pause.value.mutationOccurred;
      if pending'.Some? && mutation' {
        pending' := Some(Rollback);
      }
    }
    return true, mutation', pending';
  }

  /** The checks a step passes against the current state and a pending request. */
  method StepAllowed(entry: JournalEntry, machine: Machine?, attempts: map<string, uint32>, completed: set<string>,
                     pending: Option<OperationState>, pendingStep: string, pendingBoundary: Time,
                     pendingRequestedAt: Time, priorTime: Time, ghost f: Fold)
    returns (ok: bool)
    requires ValidEntry(entry) && entry.kind.Step?
    requires f.machine == (if machine == null then None else Some(machine.state))
    requires f.attempts == attempts && f.completed == completed && f.pending == pending
    requires f.pendingStep == pendingStep && f.pendingBoundary == pendingBoundary
    requires f.pendingRequestedAt == pendingRequestedAt && f.previousTime == priorTime
    ensures ok <==> StepFits(f, entry, entry.step.value)
  {
    var step := entry.step.value;
    if machine == null || machine.state.Paused? || entry.operationState != machine.state {
      return false;
    }
    if pending.Some? {
      if pendingStep == "" && CanTransition(machine.state, pending.value) {
        return false;
      }
      if pendingStep != "" && step.id != pendingStep {
        return false;
      }
      if pendingStep != "" && step.startedAt.After(pendingRequestedAt) {
        return false;
      }
    }
    var stepStartBoundary := priorTime;
    if pendingStep != "" {
      stepStartBoundary := pendingBoundary;
    }
    if step.startedAt.Before(stepStartBoundary) || step.id in completed {
      return false;
    }
    var wantAttempt := (Attempts(attempts, step.id) + 1) % TWO_TO_32;
    return step.attempt == wantAttempt;
  }

  /** Validates one complete history. */
  method ValidateJournal(entries: seq<JournalEntry>) returns (accepted: bool)
    ensures accepted <==> Accepted(entries)
  {
    if |entries| == 0 {
      return false;
    }
    var first := entries[0];
    var machine: Machine? := null;
    var previousTime := ZERO_TIME;
    var attempts: map<string, uint32> := map[];
    var completed: set<string> := {};
    var mutation := false;
    var paused: Option<JournalPause> := None;
    var pending: Option<OperationState> := None;
    var pendingStep, pendingBoundary, pendingRequestedAt := "", ZERO_TIME, ZERO_TIME;
    ghost var fold := BLANK;

    for index := 0 to |entries|
      invariant machine != null ==> fresh(machine)
      invariant Replay(entries[..index]) == Some(fold)
      invariant fold == Fold(if machine == null then None else Some(machine.state), previousTime, attempts,
                             completed, mutation, paused, pending, pendingStep, pendingBoundary, pendingRequestedAt)
    {
      var entry := entries[index];
      ReplayStep(entries, index);
      RejectedForGood(entries, index + 1);
      if !ValidEntry(entry) || entry.sequence != index + 1 {
        return false;
      }
      if entry.operationID != first.operationID || entry.planID != first.planID ||
         entry.contractHash != first.contractHash {
        return false;
      }
      var priorTime := previousTime;
      if !priorTime.IsZero() && entry.recordedAt.Before(priorTime) {
        return false;
      }
      previousTime := entry.recordedAt;
      if machine != null && machine.state.Terminal() {
        return false;
      }
      assert Continues(fold, first, index, entry);

      var ok: bool;
      match entry.kind {
        case CancellationRequest =>
          ok, mutation, pending := TakeRequest(entry, machine, mutation, pending, fold);
          if !ok {
            return false;
          }
          pendingStep := entry.cancellation.value.currentStepID;
          pendingBoundary, pendingRequestedAt := priorTime, entry.cancellation.value.requestedAt;

        case Transition =>
          if machine == null {
            if !entry.operationState.Discover? {
              return false;
            }
            machine := new Machine(entry.operationID, entry.planID, Discover);
          } else {
            var wasPending := pending.Some?;
            ok, mutation, pending := TakeTransition(entry, machine, mutation, paused, pending, fold);
            if !ok {
              return false;
            }
            if wasPending {
              pendingStep, pendingBoundary, pendingRequestedAt := "", ZERO_TIME, ZERO_TIME;
            }
            paused := entry.pause;
          }

        case Step =>
          var step := entry.step.value;
          ok := StepAllowed(entry, machine, attempts, completed, pending, pendingStep, pendingBoundary,
                            pendingRequestedAt, priorTime, fold);
          if !ok {
            return false;
          }
          pendingStep, pendingBoundary, pendingRequestedAt := "", ZERO_TIME, ZERO_TIME;
          attempts := attempts[step.id := step.attempt];
          mutation := mutation || StepMayMutate(step);
          if pending.Some? && mutation {
            pending := Some(Rollback);
          }
          if step.outcome.StepDone? {
            completed := completed + {step.id};
          }
      }
      fold := Advance(fold, first, index, entry).value;
    }
    assert entries[..|entries|] == entries;
    return true;
  }

  // ----- Object names -----

  function StateSlug(state: OperationState): string {
    match state
    case Discover => "discover" case Validate => "validate" case Plan => "plan"
    case ApprovedWaiting => "approved-waiting" case Lock => "lock" case Protect => "protect"
    case Execute => "execute" case Paused => "paused" case Verify => "verify" case Document => "document"
    case Rollback => "rollback" case Complete => "complete"
    case CompleteWithFailedVerification => "complete-with-failed-verification"
    case CompleteWithDocumentationError => "complete-with-documentation-error"
    case VerifiedRollback => "verified-rollback" case Cancelled => "cancelled" case Failed => "failed"
    case FailedCleanup => "failed-cleanup"
  }

  /** The immutable object file name of an entry, refused for an invalid entry. */
  function JournalObjectName(entry: JournalEntry): Option<string> {
    if !ValidEntry(entry) then None
    else
      var entryID := match entry.kind
        case Step => entry.step.value.id
        case CancellationRequest => "cancellation-request"
        case Transition => "state-" + StateSlug(entry.operationState);
      Some(Padded(entry.sequence, 20) + "-" + entryID + ".json")
  }
}
