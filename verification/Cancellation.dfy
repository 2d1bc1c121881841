/** Cancellation requests, the controller restored from a journal, and the
    one-shot capability that moves the machine. */
module Cancellation {
  import opened Common
  import opened Text
  import opened Operation
  import opened Journal
  import opened Contracts

  /** `journal` is the hashed prefix itself: the digest is taken to be injective. */
  datatype Binding = Binding(
    operationID: string, planID: string, contractHash: string, journal: seq<JournalEntry>,
    sequence: nat, requestedAt: Time, stepID: string, cancelSafe: bool)

  const NO_BINDING := Binding("", "", "", [], 0, ZERO_TIME, "", false)

  datatype Controller = Controller(queued: bool, target: Option<OperationState>, binding: Binding)

  const IDLE := Controller(false, None, NO_BINDING)

  datatype Request = Request(operationID: string, planID: string, sequence: nat, requestedAt: Time)

  // ----- Point of no return -----

  /** The index a map filled in step order ends up holding for `id`. */
  function LastIndex(steps: seq<StepContract>, id: string): (r: Option<nat>)
    ensures r.Some? ==> r.value < |steps| && steps[r.value].id == id
    ensures r.None? ==> forall i :: 0 <= i < |steps| ==> steps[i].id != id
  {
    if steps == [] then None
    else if steps[|steps| - 1].id == id then Some(|steps| - 1)
    else LastIndex(steps[..|steps| - 1], id)
  }

  predicate Crosses(steps: seq<StepContract>, point: nat, trigger: Trigger, e: JournalEntry) {
    && e.kind.Step? && e.step.Some?
    && var index := LastIndex(steps, e.step.value.id);
       index.None? || index.value > point ||
       (index.value == point &&
        match trigger
        case StepStart => true
        case MutationObserved => StepMayMutate(e.step.value)
        case StepComplete => e.step.value.outcome.StepDone?)
  }

  ghost predicate PointReached(contract: ExecutionContract, entries: seq<JournalEntry>) {
    && contract.pointOfNoReturn != ""
    && var point := LastIndex(contract.steps, contract.pointOfNoReturn);
       point.None? || contract.trigger.None? ||
       exists i :: 0 <= i < |entries| && Crosses(contract.steps, point.value, contract.trigger.value, entries[i])
  }

  method PointOfNoReturnReached(contract: ExecutionContract, entries: seq<JournalEntry>) returns (reached: bool)
    requires forall i :: 0 <= i < |entries| ==> ValidEntry(entries[i])
    ensures reached <==> PointReached(contract, entries)
  {
    if contract.pointOfNoReturn == "" {
      return false;
    }
    var pointIndex: Option<nat> := None;
    var stepIndexes: map<string, nat> := map[];
    for index := 0 to |contract.steps|
      invariant pointIndex == LastIndex(contract.steps[..index], contract.pointOfNoReturn)
      invariant forall id :: LastIndex(contract.steps[..index], id) ==
                             if id in stepIndexes then Some(stepIndexes[id]) else None
    {
      var step := contract.steps[index];
      assert contract.steps[..index + 1][..index] == contract.steps[..index];
      stepIndexes := stepIndexes[step.id := index];
      if step.id == contract.pointOfNoReturn {
        pointIndex := Some(index);
      }
    }
    assert contract.steps[..|contract.steps|] == contract.steps;
    if pointIndex.None? || contract.trigger.None? {
      return true;
    }
    for i := 0 to |entries|
      invariant forall k :: 0 <= k < i ==>
                  !Crosses(contract.steps, pointIndex.value, contract.trigger.value, entries[k])
    {
      var entry := entries[i];
      if !entry.kind.Step? {
        continue;
      }
      if entry.step.value.id !in stepIndexes {
        return true;
      }
      var index := stepIndexes[entry.step.value.id];
      if index > pointIndex.value {
        return true;
      }
      if index != pointIndex.value {
        continue;
      }
      match contract.trigger.value {
        case StepStart => return true;
        case MutationObserved =>
          if StepMayMutate(entry.step.value) {
            return true;
          }
        case StepComplete =>
          if entry.step.value.outcome.StepDone? {
            return true;
          }
      }
    }
    return false;
  }

  // ----- Restoring the controller -----

  datatype Restored = Restored(target: Option<OperationState>, binding: Binding, nextStep: nat)

  predicate StepMatches(contract: ExecutionContract, nextStep: nat, step: JournalStep) {
    && nextStep < |contract.steps|
    && step.id == contract.steps[nextStep].id
    && step.executingIdentity == contract.steps[nextStep].shape.identity
  }

  function RestoreAdvance(contract: ExecutionContract, r: Restored, upTo: seq<JournalEntry>, e: JournalEntry)
    : Option<Restored>
    requires ValidEntry(e)
  {
    match e.kind
    case CancellationRequest =>
      var request := e.cancellation.value;
      if request.executionContractHash != contract.digest || r.nextStep >= |contract.steps| ||
         request.currentStepID != contract.steps[r.nextStep].id then None
      else
        var step := contract.steps[r.nextStep];
        Some(r.(target := Some(request.requiredRoute),
                binding := Binding(e.operationID, e.planID, request.executionContractHash, upTo, e.sequence,
                                   request.requestedAt, step.id, step.shape.cancelSafe)))
    case Step =>
      var step := e.step.value;
      if !StepMatches(contract, r.nextStep, step) then None
      else Some(r.(nextStep := if step.outcome.StepDone? then r.nextStep + 1 else r.nextStep,
                   target := if r.target.Some? && StepMayMutate(step) then Some(Rollback) else r.target))
    case Transition =>
      if r.target == Some(e.operationState) then Some(r.(target := None, binding := NO_BINDING)) else Some(r)
  }

  function RestoreFold(contract: ExecutionContract, entries: seq<JournalEntry>): Option<Restored> {
    if entries == [] then Some(Restored(None, NO_BINDING, 0))
    else
      var last := |entries| - 1;
      match RestoreFold(contract, entries[..last])
      case None => None
      case Some(r) =>
        if !ValidEntry(entries[last]) then None else RestoreAdvance(contract, r, entries, entries[last])
  }

  ghost predicate BindsJournal(entries: seq<JournalEntry>, operationID: string, planID: string,
                               contract: ExecutionContract) {
    && Accepted(entries)
    && entries[0].operationID == operationID && entries[0].planID == planID
    && IsDigest(contract.digest)
    && entries[0].contractHash == contract.digest
  }

  /** The controller a complete journal and its contract determine, or None for a refusal. */
  ghost function RestoredController(entries: seq<JournalEntry>, operationID: string, planID: string,
                                    contract: ExecutionContract): Option<Controller> {
    if !BindsJournal(entries, operationID, planID, contract) then None
    else match RestoreFold(contract, entries)
      case None => None
      case Some(r) =>
        if r.target.Some? && PointReached(contract, entries) then None
        else if r.target == Some(Rollback) && contract.rollbackBoundary == "none" then None
        else Some(Controller(r.target.Some?, r.target, r.binding))
  }

  lemma RestoreFoldStep(contract: ExecutionContract, entries: seq<JournalEntry>, k: nat)
    requires k < |entries| && ValidEntry(entries[k])
    ensures RestoreFold(contract, entries[..k + 1]) ==
            match RestoreFold(contract, entries[..k])
            case None => None
            case Some(r) => RestoreAdvance(contract, r, entries[..k + 1], entries[k])
  {
    assert entries[..k + 1][..k] == entries[..k];
  }

  lemma {:induction false} RestoreRefusedForGood(contract: ExecutionContract, entries: seq<JournalEntry>, k: nat)
    requires k <= |entries| && RestoreFold(contract, entries[..k]).None?
    ensures RestoreFold(contract, entries).None?
    decreases |entries|
  {
    if k == |entries| {
      assert entries[..k] == entries;
    } else {
      assert entries[..|entries| - 1][..k] == entries[..k];
      RestoreRefusedForGood(contract, entries[..|entries| - 1], k);
    }
  }

  lemma {:induction false} AcceptedEntries(entries: seq<JournalEntry>, k: nat)
    requires Replay(entries).Some? && k < |entries|
    ensures ValidEntry(entries[k]) && entries[k].sequence == k + 1
    ensures entries[k].operationID == entries[0].operationID && entries[k].planID == entries[0].planID
    ensures entries[k].contractHash == entries[0].contractHash
  {
    PrefixAccepted(entries, k + 1);
    ReplayStep(entries, k);
  }

  method RestoreCancellationController(entries: seq<JournalEntry>, operationID: string, planID: string,
                                       contract: ExecutionContract)
    returns (controller: Option<Controller>)
    ensures controller == RestoredController(entries, operationID, planID, contract)
  {
    hide Replay, PointReached;
    var valid := ValidateJournal(entries);
    if !valid {
      return None;
    }
    if entries[0].operationID != operationID || entries[0].planID != planID || !IsDigest(contract.digest) ||
       entries[0].contractHash != contract.digest {
      return None;
    }
    forall k | 0 <= k < |entries| ensures ValidEntry(entries[k]) && entries[k].sequence == k + 1 {
      AcceptedEntries(entries, k);
    }
    var target: Option<OperationState> := None;
    var binding := NO_BINDING;
    var nextStep: nat := 0;
    for i := 0 to |entries|
      invariant RestoreFold(contract, entries[..i]) == Some(Restored(target, binding, nextStep))
    {
      var entry := entries[i];
      RestoreFoldStep(contract, entries, i);
      if RestoreFold(contract, entries[..i + 1]).None? {
        RestoreRefusedForGood(contract, entries, i + 1);
      }
      if entry.kind.Step? {
        if !StepMatches(contract, nextStep, entry.step.value) {
          return None;
        }
        if entry.step.value.outcome.StepDone? {
          nextStep := nextStep + 1;
        }
      }
      if entry.kind.CancellationRequest? {
        var request := entry.cancellation.value;
        var journal := entries[..entry.sequence];
        if request.executionContractHash != contract.digest {
          return None;
        }
        if nextStep >= |contract.steps| || request.currentStepID != contract.steps[nextStep].id {
          return None;
        }
        var step := contract.steps[nextStep];
        target := Some(request.requiredRoute);
        binding := Binding(entry.operationID, entry.planID, request.executionContractHash, journal, entry.sequence,
                           request.requestedAt, step.id, step.shape.cancelSafe);
        continue;
      }
      if target.Some? && entry.kind.Step? && StepMayMutate(entry.step.value) {
        target := Some(Rollback);
      }
      if target.Some? && entry.kind.Transition? && entry.operationState == target.value {
        target, binding := None, NO_BINDING;
      }
    }
    assert entries[..|entries|] == entries;
    var reached := PointOfNoReturnReached(contract, entries);
    if target.Some? && reached {
      return None;
    }
    if target == Some(Rollback) && contract.rollbackBoundary == "none" {
      return None;
    }
    return Some(Controller(target.Some?, target, binding));
  }

  // ----- The context of a new request -----

  datatype Context = Context(nextStep: nat, observation: MutationObservation)

  function ContextAdvance(contract: ExecutionContract, c: Context, e: JournalEntry): Option<Context>
    requires ValidEntry(e)
  {
    if e.kind.CancellationRequest? then None
    else
      var seen := if e.pause.Some? && e.pause.value.mutationOccurred then Occurred else c.observation;
      if !e.kind.Step? then Some(Context(c.nextStep, seen))
      else
        var step := e.step.value;
        if !StepMatches(contract, c.nextStep, step) then None
        else Some(Context(if step.outcome.StepDone? then c.nextStep + 1 else c.nextStep,
                          if step.outcome.StepUnknown? then Unknown
                          else if step.mutationOccurred && !seen.Unknown? then Occurred
                          else seen))
  }

  function ContextFold(contract: ExecutionContract, entries: seq<JournalEntry>): Option<Context> {
    if entries == [] then Some(Context(0, NotOccurred))
    else
      var last := |entries| - 1;
      match ContextFold(contract, entries[..last])
      case None => None
      case Some(c) => if !ValidEntry(entries[last]) then None else ContextAdvance(contract, c, entries[last])
  }

  lemma {:induction false} ContextRefusedForGood(contract: ExecutionContract, entries: seq<JournalEntry>, k: nat)
    requires k <= |entries| && ContextFold(contract, entries[..k]).None?
    ensures ContextFold(contract, entries).None?
    decreases |entries|
  {
    if k == |entries| {
      assert entries[..k] == entries;
    } else {
      assert entries[..|entries| - 1][..k] == entries[..k];
      ContextRefusedForGood(contract, entries[..|entries| - 1], k);
    }
  }

  /** The current contract step and what the journal says about mutation. */
  ghost function CurrentContext(contract: ExecutionContract, entries: seq<JournalEntry>): Option<Context> {
    if PointReached(contract, entries) then None
    else match ContextFold(contract, entries)
      case None => None
      case Some(c) => if c.nextStep < |contract.steps| then Some(c) else None
  }

  method CancellationContext(contract: ExecutionContract, entries: seq<JournalEntry>)
    returns (context: Option<Context>)
    requires Accepted(entries)
    ensures context == CurrentContext(contract, entries)
  {
    hide PointReached;
    forall k | 0 <= k < |entries| ensures ValidEntry(entries[k]) {
      AcceptedEntries(entries, k);
    }
    var reached := PointOfNoReturnReached(contract, entries);
    if reached {
      return None;
    }
    var nextStep: nat := 0;
    var observation := NotOccurred;
    for i := 0 to |entries|
      invariant ContextFold(contract, entries[..i]) == Some(Context(nextStep, observation))
    {
      var entry := entries[i];
      assert entries[..i + 1][..i] == entries[..i];
      if ContextFold(contract, entries[..i + 1]).None? {
        ContextRefusedForGood(contract, entries, i + 1);
      }
      if entry.kind.CancellationRequest? {
        return None;
      }
      if entry.pause.Some? && entry.pause.value.mutationOccurred {
        observation := Occurred;
      }
      if !entry.kind.Step? {
        continue;
      }
      if !StepMatches(contract, nextStep, entry.step.value) {
        return None;
      }
      if entry.step.value.outcome.StepUnknown? {
        observation := Unknown;
      } else if entry.step.value.mutationOccurred && !observation.Unknown? {
        observation := Occurred;
      }
      if entry.step.value.outcome.StepDone? {
        nextStep := nextStep + 1;
      }
    }
    assert entries[..|entries|] == entries;
    if nextStep >= |contract.steps| {
      return None;
    }
    return Some(Context(nextStep, observation));
  }

  // ----- Decisions -----

  datatype Outcome = Refused | Routed(target: OperationState, binding: Binding) | Persisted(entry: JournalEntry)

  predicate StructurallyPreMutation(state: OperationState) {
    state.Discover? || state.Validate? || state.Plan? || state.ApprovedWaiting? || state.Lock?
  }

  predicate ValidRequest(request: Request) {
    && IsOperationID(request.operationID) && IsPlanID(request.planID)
    && request.sequence != 0 && request.requestedAt.Canonical()
  }

  ghost predicate Foundation(operationID: string, planID: string, state: OperationState, request: Request,
                             contract: ExecutionContract, entries: seq<JournalEntry>) {
    && BindsJournal(entries, operationID, planID, contract)
    && contract.workflowID != "" && contract.steps != []
    && entries[|entries| - 1].operationState == state
    && request.sequence == entries[|entries| - 1].sequence + 1
    && request.requestedAt.After(entries[|entries| - 1].recordedAt)
    && RestoredController(entries, operationID, planID, contract).Some?
  }

  function RouteTo(state: OperationState, target: OperationState, binding: Binding): Outcome {
    if CanTransition(state, target) then Routed(target, binding) else Refused
  }

  function RequestEntry(request: Request, state: OperationState, stepID: string, contractHash: string,
                        observation: MutationObservation): JournalEntry {
    JournalEntry(JOURNAL_SCHEMA, request.operationID, request.planID, contractHash, request.sequence,
                 CancellationRequest, request.requestedAt, state, None, None,
                 Some(JournalCancellation(request.requestedAt, stepID, contractHash, observation,
                                          CancellationTarget(!observation.NotOccurred?))))
  }

  ghost function RequestOutcome(controller: Controller, operationID: string, planID: string, state: OperationState,
                                request: Request, contract: ExecutionContract, entries: seq<JournalEntry>): Outcome {
    if operationID != request.operationID || planID != request.planID || !ValidRequest(request) ||
       state.Terminal() || !Foundation(operationID, planID, state, request, contract, entries) ||
       controller.queued then Refused
    else
      var binding := Binding(operationID, planID, contract.digest, entries, request.sequence, request.requestedAt, "", false);
      if StructurallyPreMutation(state) then RouteTo(state, Cancelled, binding)
      else match CurrentContext(contract, entries)
        case None => Refused
        case Some(c) =>
          var step := contract.steps[c.nextStep];
          var bound := binding.(stepID := step.id, cancelSafe := step.shape.cancelSafe);
          if !c.observation.NotOccurred? && contract.rollbackBoundary == "none" then Refused
          else if state.Paused? then RouteTo(state, CancellationTarget(!c.observation.NotOccurred?), bound)
          else if !state.Protect? && !state.Execute? then Refused
          else
            var entry := RequestEntry(request, state, step.id, contract.digest, c.observation);
            if Accepted(entries + [entry]) then Persisted(entry) else Refused
  }

  ghost predicate BoundaryRecorded(entries: seq<JournalEntry>, binding: Binding) {
    exists i :: 0 <= i < |entries| && EndsStep(entries[i], binding)
  }

  predicate EndsStep(e: JournalEntry, binding: Binding) {
    && e.sequence > binding.sequence && e.kind.Step? && e.step.Some?
    && e.step.value.id == binding.stepID && e.step.value.endedAt.Some?
  }

  ghost function BoundaryOutcome(controller: Controller, operationID: string, planID: string, state: OperationState,
                                 contract: ExecutionContract, entries: seq<JournalEntry>): Outcome {
    if !controller.queued || controller.binding.operationID != operationID ||
       controller.binding.planID != planID || state.Terminal() ||
       entries == [] || entries[|entries| - 1].operationState != state then Refused
    else match RestoredController(entries, operationID, planID, contract)
      case None => Refused
      case Some(restored) =>
        if !restored.queued || restored.binding != controller.binding ||
           !BoundaryRecorded(entries, controller.binding) then Refused
        else RouteTo(state, restored.target.value, restored.binding)
  }

  datatype Action = NoAction | PersistRequest | CancelNow | RollBack

  /** The capability inside a routed decision, shared by every copy of it. */
  class CancellationAuthorization {
    const machine: Machine
    const generation: uint64
    const origin: OperationState
    const target: OperationState
    const binding: Binding
    var used: bool

    constructor (machine: Machine, target: OperationState, binding: Binding)
      ensures this.machine == machine && generation == machine.generation && origin == machine.state
      ensures this.target == target && this.binding == binding && !used
    {
      this.machine, this.generation, this.origin := machine, machine.generation, machine.state;
      this.target, this.binding, this.used := target, binding, false;
    }
  }

  datatype Decision = Decision(
    action: Action, target: Option<OperationState>, entry: Option<JournalEntry>,
    authorization: CancellationAuthorization?)

  const NO_DECISION := Decision(NoAction, None, None, null)

  /** An unused decision for exactly the machine's present state. */
  ghost predicate Issued(decision: Decision, machine: Machine, target: OperationState, binding: Binding)
    reads machine, decision.authorization
  {
    && decision.target == Some(target) && decision.entry.None?
    && decision.action == (if target.Rollback? then RollBack else CancelNow)
    && var a := decision.authorization;
       && a != null && !a.used && a.machine == machine
       && a.generation == machine.generation && a.origin == machine.state
       && a.target == target && a.binding == binding
  }

  method Route(controller: Controller, machine: Machine, target: OperationState, binding: Binding)
    returns (next: Controller, decision: Decision)
    ensures RouteTo(machine.state, target, binding).Refused? ==> next == controller && decision == NO_DECISION
    ensures RouteTo(machine.state, target, binding).Routed? ==>
              next == IDLE && Issued(decision, machine, target, binding) && fresh(decision.authorization)
  {
    if !CanTransition(machine.state, target) {
      return controller, NO_DECISION;
    }
    var action := CancelNow;
    if target.Rollback? {
      action := RollBack;
    }
    var authorization := new CancellationAuthorization(machine, target, binding);
    return IDLE, Decision(action, Some(target), None, authorization);
  }

  /** Persists a request made during unsafe work, or routes at once at a safe boundary. */
  method RequestCancellation(controller: Controller, machine: Machine, request: Request,
                             contract: ExecutionContract, entries: seq<JournalEntry>)
    returns (next: Controller, decision: Decision)
    ensures match RequestOutcome(controller, machine.operationID, machine.planID, machine.state, request, contract, entries)
            case Refused => next == controller && decision == NO_DECISION
            case Routed(target, binding) =>
              next == IDLE && Issued(decision, machine, target, binding) && fresh(decision.authorization)
            case Persisted(entry) => next == controller && decision == Decision(PersistRequest, None, Some(entry), null)
  {
    next, decision := controller, NO_DECISION;
    var current := machine.state;
    if machine.operationID != request.operationID || machine.planID != request.planID || !ValidRequest(request) ||
       current.Terminal() {
      return;
    }
    var restored := RestoreCancellationController(entries, machine.operationID, machine.planID, contract);
    if restored.None? || contract.workflowID == "" || contract.steps == [] {
      return;
    }
    var last := entries[|entries| - 1];
    if last.operationState != current || request.sequence != last.sequence + 1 ||
       !request.requestedAt.After(last.recordedAt) || controller.queued {
      return;
    }
    var binding := Binding(machine.operationID, machine.planID, contract.digest, entries, request.sequence,
                           request.requestedAt, "", false);
    if StructurallyPreMutation(current) {
      next, decision := Route(controller, machine, Cancelled, binding);
      return;
    }
    var context := CancellationContext(contract, entries);
    if context.None? {
      return;
    }
    var step, observation := contract.steps[context.value.nextStep], context.value.observation;
    binding := binding.(stepID := step.id, cancelSafe := step.shape.cancelSafe);
    if !observation.NotOccurred? && contract.rollbackBoundary == "none" {
      return;
    }
    if current.Paused? {
      next, decision := Route(controller, machine, CancellationTarget(!observation.NotOccurred?), binding);
      return;
    }
    if !current.Protect? && !current.Execute? {
      return;
    }
    var entry := RequestEntry(request, current, step.id, contract.digest, observation);
    var extends' := ValidateJournal(entries + [entry]);
    if extends' {
      decision := Decision(PersistRequest, None, Some(entry), null);
    }
  }

  /** Honours a queued request once the in-flight step has durably ended. */
  method AtBoundary(controller: Controller, machine: Machine, contract: ExecutionContract, entries: seq<JournalEntry>)
    returns (next: Controller, decision: Decision)
    ensures match BoundaryOutcome(controller, machine.operationID, machine.planID, machine.state, contract, entries)
            case Routed(target, binding) =>
              next == IDLE && Issued(decision, machine, target, binding) && fresh(decision.authorization)
            case _ => next == controller && decision == NO_DECISION
  {
    next, decision := controller, NO_DECISION;
    var current := machine.state;
    if !controller.queued || controller.binding.operationID != machine.operationID ||
       controller.binding.planID != machine.planID || current.Terminal() {
      return;
    }
    if |entries| == 0 || entries[|entries| - 1].operationState != current {
      return;
    }
    var restored := RestoreCancellationController(entries, machine.operationID, machine.planID, contract);
    if restored.None? || !restored.value.queued || restored.value.binding != controller.binding {
      return;
    }
    var recorded := false;
    for i := 0 to |entries|
      invariant recorded <==> exists k :: 0 <= k < i && EndsStep(entries[k], controller.binding)
    {
      recorded := recorded || EndsStep(entries[i], controller.binding);
    }
    if !recorded {
      return;
    }
    next, decision := Route(controller, machine, restored.value.target.value, restored.value.binding);
  }

  predicate Applicable(decision: Decision, machine: Machine) {
    && decision.authorization != null
    && var a := decision.authorization;
       && a.machine == machine
       && decision.target == Some(a.target)
       && a.binding.operationID == machine.operationID && a.binding.planID == machine.planID
       && IsDigest(a.binding.contractHash)
       && a.binding.sequence != 0 && !a.binding.requestedAt.IsZero()
       && ((decision.action.CancelNow? && a.target.Cancelled?) || (decision.action.RollBack? && a.target.Rollback?))
  }

  /** Advances the machine for an unused decision made at its exact current
      boundary. The capability is spent by the first matching attempt, even by
      one that then finds the boundary changed. */
  method ApplyCancellation(machine: Machine, decision: Decision) returns (ok: bool)
    modifies machine, if decision.authorization == null then {} else {decision.authorization}
    ensures ok <==>
            && Applicable(decision, machine)
            && !old(decision.authorization.used)
            && decision.authorization.generation == old(machine.generation)
            && decision.authorization.origin == old(machine.state)
            && CanTransition(old(machine.state), decision.authorization.target)
    ensures ok ==> Some(machine.state) == decision.target
    ensures ok ==> machine.generation == (old(machine.generation) + 1) % TWO_TO_64
    ensures !ok ==> machine.state == old(machine.state) && machine.generation == old(machine.generation)
    ensures decision.authorization != null ==>
              (decision.authorization.used <==> old(decision.authorization.used) || Applicable(decision, machine))
  {
    if !Applicable(decision, machine) {
      return false;
    }
    var authorization := decision.authorization;
    if authorization.used {
      return false;
    }
    authorization.used := true;
    if authorization.generation != machine.generation || authorization.origin != machine.state {
      return false;
    }
    ok := machine.Advance(decision.target.value, true);
  }
}
