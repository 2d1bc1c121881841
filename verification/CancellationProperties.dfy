/** How the validator, the restored controller and the decisions agree. */
module CancellationProperties {
  import opened Common
  import opened Text
  import opened Operation
  import opened Journal
  import opened Contracts
  import opened JournalProperties
  import opened Cancellation

  // ----- The folds agree -----

  lemma RouteStep(contract: ExecutionContract, f: Fold, r: Restored, first: JournalEntry, index: nat,
                  upTo: seq<JournalEntry>, e: JournalEntry)
    requires Sound(f) && r.target == f.pending
    requires Advance(f, first, index, e).Some? && RestoreAdvance(contract, r, upTo, e).Some?
    ensures RestoreAdvance(contract, r, upTo, e).value.target == Advance(f, first, index, e).value.pending
  {
    SoundStep(f, first, index, e);
  }

  /** What a restored binding says about the journal it was restored from. */
  ghost predicate BindsRequest(entries: seq<JournalEntry>, contract: ExecutionContract, b: Binding) {
    && 0 < b.sequence <= |entries|
    && var e := entries[b.sequence - 1];
       && ValidEntry(e)
       && e.kind.CancellationRequest?
       && e.operationID == b.operationID && e.planID == b.planID
       && b.contractHash == contract.digest
       && b.journal == entries[..b.sequence]
       && b.requestedAt == e.cancellation.value.requestedAt
       && b.stepID == e.cancellation.value.currentStepID
  }

  lemma BindingStep(contract: ExecutionContract, r: Restored, before: seq<JournalEntry>, e: JournalEntry)
    requires ValidEntry(e) && e.sequence == |before| + 1
    requires r.target.Some? ==> BindsRequest(before, contract, r.binding)
    requires RestoreAdvance(contract, r, before + [e], e).Some?
    ensures var q := RestoreAdvance(contract, r, before + [e], e).value;
            q.target.Some? ==> BindsRequest(before + [e], contract, q.binding)
  {
    var q := RestoreAdvance(contract, r, before + [e], e).value;
    assert (before + [e])[..|before| + 1] == before + [e];
    if q.target.Some? && !e.kind.CancellationRequest? {
      assert (before + [e])[..r.binding.sequence] == before[..r.binding.sequence];
    }
  }

  /** The route the restored controller rebuilds is the one the validator holds,
      although only one of them upgrades on pauses and only one folds in
      mutation from before the request. The restored binding is the request's own. */
  lemma {:induction false} RestoredRouteAgrees(contract: ExecutionContract, entries: seq<JournalEntry>)
    requires Replay(entries).Some? && RestoreFold(contract, entries).Some?
    ensures RestoreFold(contract, entries).value.target == Replay(entries).value.pending
    ensures RestoreFold(contract, entries).value.target.Some? ==>
              BindsRequest(entries, contract, RestoreFold(contract, entries).value.binding)
  {
    hide RestoreAdvance, Advance, ValidEntry, AnyMayMutate;
    if entries != [] {
      var last := |entries| - 1;
      var before, e := entries[..last], entries[last];
      RestoredRouteAgrees(contract, before);
      ReplayState(before);
      AcceptedEntries(entries, last);
      assert entries == before + [e];
      RouteStep(contract, Replay(before).value, RestoreFold(contract, before).value, entries[0], last, entries, e);
      BindingStep(contract, RestoreFold(contract, before).value, before, e);
    }
  }

  lemma ContextStep(contract: ExecutionContract, f: Fold, r: Restored, c: Context, first: JournalEntry, index: nat,
                    upTo: seq<JournalEntry>, e: JournalEntry)
    requires Sound(f) && f.pending.None? && (c.observation.NotOccurred? <==> !f.mutation)
    requires r.target.None? && r.nextStep == c.nextStep
    requires Advance(f, first, index, e).Some? && ContextAdvance(contract, c, e).Some?
    ensures var g := Advance(f, first, index, e).value;
            var d := ContextAdvance(contract, c, e).value;
            g.pending.None? && (d.observation.NotOccurred? <==> !g.mutation)
    ensures var q := RestoreAdvance(contract, r, upTo, e);
            q.Some? && q.value.target.None? && q.value.nextStep == ContextAdvance(contract, c, e).value.nextStep
  {
    SoundStep(f, first, index, e);
  }

  /** The context fold reports mutation exactly when the validator's flag is up,
      and stands at the same contract step as the restored controller. */
  lemma {:induction false} ContextAgrees(contract: ExecutionContract, entries: seq<JournalEntry>)
    requires Replay(entries).Some? && ContextFold(contract, entries).Some?
    ensures Replay(entries).value.pending.None?
    ensures ContextFold(contract, entries).value.observation.NotOccurred? <==> !AnyMayMutate(entries)
    ensures RestoreFold(contract, entries).Some?
    ensures RestoreFold(contract, entries).value.target.None?
    ensures RestoreFold(contract, entries).value.nextStep == ContextFold(contract, entries).value.nextStep
  {
    ReplayState(entries);
    if entries != [] {
      var last := |entries| - 1;
      var before := entries[..last];
      ContextAgrees(contract, before);
      ReplayState(before);
      ContextStep(contract, Replay(before).value, RestoreFold(contract, before).value,
                  ContextFold(contract, before).value, entries[0], last, entries, entries[last]);
    }
  }

  // ----- Decisions extend the journal -----

  /** `e` is a well-formed record of the next transition, into `target`. */
  predicate RecordsNext(entries: seq<JournalEntry>, e: JournalEntry, target: OperationState) {
    && entries != []
    && ValidEntry(e) && e.kind.Transition? && e.operationState == target
    && e.sequence == |entries| + 1
    && e.operationID == entries[0].operationID && e.planID == entries[0].planID
    && e.contractHash == entries[0].contractHash
    && !e.recordedAt.Before(entries[|entries| - 1].recordedAt)
  }

  lemma AppendReplays(entries: seq<JournalEntry>, e: JournalEntry)
    requires Accepted(entries)
    ensures Replay(entries + [e]) == Advance(Replay(entries).value, entries[0], |entries|, e)
  {
    var longer := entries + [e];
    assert longer[..|entries|] == entries;
    ReplayStep(longer, |entries|);
    assert longer[..|entries| + 1] == longer;
  }

  lemma RouteStepIff(f: Fold, e: JournalEntry)
    requires Sound(f) && f.machine.Some? && ValidEntry(e) && e.kind.Transition?
    requires e.operationState.Cancelled? || e.operationState.Rollback?
    ensures AdvanceTransition(f, e).Some? <==>
            && CanTransition(f.machine.value, e.operationState)
            && (if e.operationState.Cancelled? then !f.mutation else f.pending != Some(Cancelled))
    ensures AdvanceTransition(f, e).Some? ==> AdvanceTransition(f, e).value.pending.None?
  {
    hide RouteReachable;
    ReachabilityTable(f.machine.value);
  }

  lemma RouteEntryContinues(entries: seq<JournalEntry>, e: JournalEntry, target: OperationState)
    requires Accepted(entries) && RecordsNext(entries, e, target)
    ensures Replay(entries).value.machine == Some(entries[|entries| - 1].operationState)
    ensures Sound(Replay(entries).value) && (Replay(entries).value.mutation <==> AnyMayMutate(entries))
    ensures Replay(entries + [e]) ==
            if Replay(entries).value.machine.value.Terminal() then None else AdvanceTransition(Replay(entries).value, e)
  {
    hide AdvanceTransition, ValidEntry, AnyMayMutate, Sound;
    ReplayState(entries);
    AppendReplays(entries, e);
  }

  /** Exactly when the validator accepts a recorded transition into CANCELLED or
      ROLLBACK: along a table edge, CANCELLED only while nothing may have
      mutated, ROLLBACK unless a pending request demands CANCELLED. */
  lemma RouteRecordedIff(entries: seq<JournalEntry>, e: JournalEntry, target: OperationState)
    requires Accepted(entries) && RecordsNext(entries, e, target) && (target.Cancelled? || target.Rollback?)
    ensures Accepted(entries + [e]) <==>
            && CanTransition(entries[|entries| - 1].operationState, target)
            && (if target.Cancelled? then !AnyMayMutate(entries) else Replay(entries).value.pending != Some(Cancelled))
    ensures Accepted(entries + [e]) ==> Replay(entries + [e]).value.pending.None?
  {
    hide AdvanceTransition, ValidEntry, AnyMayMutate, Sound, Replay;
    RouteEntryContinues(entries, e, target);
    RouteStepIff(Replay(entries).value, e);
  }

  /** Any route AtBoundary issues, recorded as the next transition, is accepted
      and leaves no cancellation pending. */
  lemma BoundaryRouteAccepted(controller: Controller, operationID: string, planID: string, state: OperationState,
                              contract: ExecutionContract, entries: seq<JournalEntry>, e: JournalEntry)
    requires BoundaryOutcome(controller, operationID, planID, state, contract, entries).Routed?
    requires RecordsNext(entries, e, BoundaryOutcome(controller, operationID, planID, state, contract, entries).target)
    ensures Accepted(entries + [e])
    ensures Replay(entries + [e]).value.pending.None?
  {
    RestoredRouteAgrees(contract, entries);
    ReplayState(entries);
    RouteRecordedIff(entries, e, e.operationState);
  }

  /** Any route Request issues while PAUSED, recorded as the next transition, is accepted. */
  lemma PausedRouteAccepted(controller: Controller, operationID: string, planID: string, request: Request,
                            contract: ExecutionContract, entries: seq<JournalEntry>, e: JournalEntry)
    requires RequestOutcome(controller, operationID, planID, Paused, request, contract, entries).Routed?
    requires RecordsNext(entries, e, RequestOutcome(controller, operationID, planID, Paused, request, contract, entries).target)
    ensures Accepted(entries + [e])
    ensures Replay(entries + [e]).value.pending.None?
  {
    ContextAgrees(contract, entries);
    RouteRecordedIff(entries, e, e.operationState);
  }

  /** Before PROTECT, Request answers CANCELLED without reading the history. The
      validator accepts that transition exactly when nothing may have mutated. */
  lemma PreMutationRouteAcceptedIff(controller: Controller, operationID: string, planID: string, state: OperationState,
                                    request: Request, contract: ExecutionContract, entries: seq<JournalEntry>,
                                    e: JournalEntry)
    requires StructurallyPreMutation(state)
    requires RequestOutcome(controller, operationID, planID, state, request, contract, entries).Routed?
    requires RecordsNext(entries, e, Cancelled)
    ensures RequestOutcome(controller, operationID, planID, state, request, contract, entries).target == Cancelled
    ensures Accepted(entries + [e]) <==> !AnyMayMutate(entries)
  {
    RouteRecordedIff(entries, e, Cancelled);
  }

  /** Routes issued at a boundary or while PAUSED name the history: CANCELLED
      exactly when nothing may have mutated, otherwise ROLLBACK under a real
      rollback boundary; never past the point of no return. Before PROTECT every
      route is CANCELLED, so there it names the history exactly when untouched. */
  lemma RoutesFollowTheHistory(controller: Controller, operationID: string, planID: string, state: OperationState,
                               request: Request, contract: ExecutionContract, entries: seq<JournalEntry>)
    ensures var o := RequestOutcome(controller, operationID, planID, state, request, contract, entries);
            o.Routed? && !StructurallyPreMutation(state) ==>
              && o.target == CancellationTarget(AnyMayMutate(entries))
              && (o.target.Rollback? ==> contract.rollbackBoundary != "none")
              && !PointReached(contract, entries)
    ensures var o := RequestOutcome(controller, operationID, planID, state, request, contract, entries);
            o.Routed? && StructurallyPreMutation(state) ==>
              o.target.Cancelled? && (o.target == CancellationTarget(AnyMayMutate(entries)) <==> !AnyMayMutate(entries))
    ensures var o := BoundaryOutcome(controller, operationID, planID, state, contract, entries);
            o.Routed? ==>
              && o.target == CancellationTarget(AnyMayMutate(entries))
              && (o.target.Rollback? ==> contract.rollbackBoundary != "none")
              && !PointReached(contract, entries)
  {
    if RequestOutcome(controller, operationID, planID, state, request, contract, entries).Routed? &&
       !StructurallyPreMutation(state) {
      ContextAgrees(contract, entries);
    }
    if BoundaryOutcome(controller, operationID, planID, state, contract, entries).Routed? {
      RestoredRouteAgrees(contract, entries);
      ReplayState(entries);
    }
  }

  /** Every routed binding passes the checks ApplyCancellation makes of it. */
  lemma RoutedBindingsApply(controller: Controller, operationID: string, planID: string, state: OperationState,
                            request: Request, contract: ExecutionContract, entries: seq<JournalEntry>)
    ensures var o := RequestOutcome(controller, operationID, planID, state, request, contract, entries);
            o.Routed? ==> BindingApplies(o.binding, operationID, planID) && o.binding.journal == entries &&
                          (o.target.Cancelled? || o.target.Rollback?) && CanTransition(state, o.target)
    ensures var o := BoundaryOutcome(controller, operationID, planID, state, contract, entries);
            o.Routed? ==> BindingApplies(o.binding, operationID, planID) && o.binding.journal <= entries &&
                          (o.target.Cancelled? || o.target.Rollback?) && CanTransition(state, o.target)
  {
    if BoundaryOutcome(controller, operationID, planID, state, contract, entries).Routed? {
      RestoredRouteAgrees(contract, entries);
      ReplayState(entries);
      AcceptedEntries(entries, RestoreFold(contract, entries).value.binding.sequence - 1);
    }
  }

  predicate BindingApplies(b: Binding, operationID: string, planID: string) {
    && b.operationID == operationID && b.planID == planID
    && IsDigest(b.contractHash) && b.sequence != 0 && !b.requestedAt.IsZero()
  }

  // ----- Persist, then restore -----

  lemma PointSurvivesAppend(contract: ExecutionContract, entries: seq<JournalEntry>, e: JournalEntry)
    requires e.kind.CancellationRequest?
    ensures PointReached(contract, entries + [e]) <==> PointReached(contract, entries)
  {
    var longer := entries + [e];
    assert forall i :: 0 <= i < |entries| ==> longer[i] == entries[i];
  }

  /** A request persisted as told is the one a later restore finds queued. */
  lemma PersistedRequestRestores(controller: Controller, operationID: string, planID: string, state: OperationState,
                                 request: Request, contract: ExecutionContract, entries: seq<JournalEntry>)
    requires RequestOutcome(controller, operationID, planID, state, request, contract, entries).Persisted?
    ensures var e := RequestOutcome(controller, operationID, planID, state, request, contract, entries).entry;
            var restored := RestoredController(entries + [e], operationID, planID, contract);
            && restored.Some? && restored.value.queued
            && restored.value.target == Some(CancellationTarget(AnyMayMutate(entries)))
            && restored.value.binding.sequence == request.sequence
            && restored.value.binding.requestedAt == request.requestedAt
            && restored.value.binding.journal == entries + [e]
  {
    var e := RequestOutcome(controller, operationID, planID, state, request, contract, entries).entry;
    var longer := entries + [e];
    ContextAgrees(contract, entries);
    PointSurvivesAppend(contract, entries, e);
    assert longer[..|entries|] == entries;
    AcceptedEntries(longer, |entries|);
    assert RestoreFold(contract, longer) ==
           RestoreAdvance(contract, RestoreFold(contract, entries).value, longer, e);
  }

  // ----- The point of no return is final -----

  /** Whether Request answers a well-formed request in a structurally pre-mutation state. */
  ghost predicate ShortcutOpen(controller: Controller, operationID: string, planID: string, state: OperationState,
                               request: Request, contract: ExecutionContract, entries: seq<JournalEntry>) {
    && StructurallyPreMutation(state) && !controller.queued
    && operationID == request.operationID && planID == request.planID && ValidRequest(request)
    && Foundation(operationID, planID, state, request, contract, entries)
  }

  lemma PointStays(contract: ExecutionContract, entries: seq<JournalEntry>, more: seq<JournalEntry>)
    requires PointReached(contract, entries)
    ensures PointReached(contract, entries + more)
  {
    hide LastIndex, Crosses;
    var longer := entries + more;
    var point := LastIndex(contract.steps, contract.pointOfNoReturn);
    if point.Some? && contract.trigger.Some? {
      var i :| 0 <= i < |entries| && Crosses(contract.steps, point.value, contract.trigger.value, entries[i]);
      assert longer[i] == entries[i];
    }
  }

  lemma PastPointRequest(contract: ExecutionContract, entries: seq<JournalEntry>, controller: Controller,
                         operationID: string, planID: string, state: OperationState, request: Request)
    requires PointReached(contract, entries)
    ensures var o := RequestOutcome(controller, operationID, planID, state, request, contract, entries);
            && (!o.Refused? <==> ShortcutOpen(controller, operationID, planID, state, request, contract, entries))
            && (!o.Refused? ==> o.Routed? && o.target.Cancelled?)
  {
    hide PointReached, Foundation, ValidRequest;
    assert CurrentContext(contract, entries).None?;
    assert StructurallyPreMutation(state) ==> CanTransition(state, Cancelled) && !state.Terminal();
  }

  /** Once reached, the point of no return stays reached. From then on no
      extension of the journal restores a queued request or honours one at a
      boundary, and Request answers exactly through the pre-mutation shortcut,
      which never reads the point: it then routes to CANCELLED. */
  lemma PointOfNoReturnIsFinal(contract: ExecutionContract, entries: seq<JournalEntry>, more: seq<JournalEntry>,
                               controller: Controller, operationID: string, planID: string, state: OperationState,
                               request: Request)
    requires PointReached(contract, entries)
    ensures PointReached(contract, entries + more)
    ensures var restored := RestoredController(entries + more, operationID, planID, contract);
            restored.Some? ==> !restored.value.queued
    ensures BoundaryOutcome(controller, operationID, planID, state, contract, entries + more).Refused?
    ensures var o := RequestOutcome(controller, operationID, planID, state, request, contract, entries + more);
            && (!o.Refused? <==> ShortcutOpen(controller, operationID, planID, state, request, contract, entries + more))
            && (!o.Refused? ==> o.Routed? && o.target.Cancelled?)
  {
    hide PointReached, ShortcutOpen, RequestOutcome, BindsJournal, BoundaryRecorded, RouteTo, RestoreFold;
    PointStays(contract, entries, more);
    PastPointRequest(contract, entries + more, controller, operationID, planID, state, request);
  }

  /** A route issued past the point of no return, recorded as the next
      transition, is accepted exactly when nothing may have mutated: the
      validator does not read the point either. */
  lemma PastPointRouteAcceptedIff(controller: Controller, operationID: string, planID: string, state: OperationState,
                                  request: Request, contract: ExecutionContract, entries: seq<JournalEntry>,
                                  e: JournalEntry)
    requires PointReached(contract, entries)
    requires RequestOutcome(controller, operationID, planID, state, request, contract, entries).Routed?
    requires RecordsNext(entries, e, RequestOutcome(controller, operationID, planID, state, request, contract, entries).target)
    ensures e.operationState.Cancelled?
    ensures Accepted(entries + [e]) <==> !AnyMayMutate(entries)
  {
    assert entries + [] == entries;
    PointOfNoReturnIsFinal(contract, entries, [], controller, operationID, planID, state, request);
    PreMutationRouteAcceptedIff(controller, operationID, planID, state, request, contract, entries, e);
  }

  // ----- The pre-mutation shortcut refused -----

  datatype Names = Names(operationID: string, planID: string, hash: string) {
    predicate Valid() { IsOperationID(operationID) && IsPlanID(planID) && IsDigest(hash) }
  }

  function Recorded(n: Names, sequence: nat, state: OperationState, pause: Option<JournalPause>): JournalEntry {
    JournalEntry(JOURNAL_SCHEMA, n.operationID, n.planID, n.hash, sequence, Transition, Time(sequence, 0), state, None,
                 pause, None)
  }

  const MUTATED_PAUSE := JournalPause(Time(6, 0), "quota", true, Time(100, 0), false)

  /** DISCOVER ... EXECUTE, a pause that admits a mutation, and the resume into DISCOVER. */
  function ResumedHistory(n: Names): seq<JournalEntry> {
    [Recorded(n, 1, Discover, None), Recorded(n, 2, Validate, None), Recorded(n, 3, Plan, None),
     Recorded(n, 4, Lock, None), Recorded(n, 5, Execute, None), Recorded(n, 6, Paused, Some(MUTATED_PAUSE)),
     Recorded(n, 7, Discover, None)]
  }

  /** A transition with no cancellation in play just moves the machine. */
  lemma PlainMove(n: Names, h: seq<JournalEntry>, k: nat, f: Fold)
    requires 0 < k < |h| && Replay(h[..k]) == Some(f)
    requires f.machine.Some? && f.pending.None? && !f.mutation
    requires h[0] == Recorded(n, 1, Discover, None) && h[k] == Recorded(n, k + 1, h[k].operationState, h[k].pause)
    requires ValidEntry(h[k]) && f.previousTime == Time(k, 0)
    requires CanTransition(f.machine.value, h[k].operationState) && !f.machine.value.Paused?
    ensures Replay(h[..k + 1]) ==
            Some(f.(machine := Some(h[k].operationState), previousTime := Time(k + 1, 0), paused := h[k].pause,
                    mutation := h[k].pause.Some? && h[k].pause.value.mutationOccurred))
  {
    ReplayStep(h, k);
    assert MayLeave(f, h[k]);
  }

  lemma {:induction false} PlainPath(n: Names, h: seq<JournalEntry>, k: nat)
    requires 0 < k <= |h| && h[0] == Recorded(n, 1, Discover, None)
    requires forall i :: 0 <= i < k ==> ValidEntry(h[i]) && h[i] == Recorded(n, i + 1, h[i].operationState, None)
    requires forall i :: 0 < i < k ==> CanTransition(h[i - 1].operationState, h[i].operationState)
    ensures Replay(h[..k]) == Some(BLANK.(machine := Some(h[k - 1].operationState), previousTime := Time(k, 0)))
  {
    if k == 1 {
      assert h[..0] == [];
      ReplayStep(h, 0);
    } else {
      PlainPath(n, h, k - 1);
      PlainMove(n, h, k - 1, BLANK.(machine := Some(h[k - 2].operationState), previousTime := Time(k - 1, 0)));
    }
  }

  lemma ResumeStep(n: Names, h: seq<JournalEntry>, f: Fold)
    requires |h| == 7 && Replay(h[..6]) == Some(f) && ValidEntry(h[6])
    requires h[0] == Recorded(n, 1, Discover, None) && h[6] == Recorded(n, 7, Discover, None)
    requires f.machine == Some(Paused) && f.pending.None? && f.previousTime == Time(6, 0)
    requires f.paused == Some(MUTATED_PAUSE)
    ensures Replay(h) == Some(f.(machine := Some(Discover), previousTime := Time(7, 0), paused := None))
  {
    ReplayStep(h, 6);
    assert Continues(f, h[0], 6, h[6]) && MayLeave(f, h[6]);
    assert h[..7] == h;
  }

  lemma ReplayToPause(n: Names, h: seq<JournalEntry>)
    requires |h| == 7 && forall i :: 0 <= i < 6 ==> ValidEntry(h[i])
    requires h[0] == Recorded(n, 1, Discover, None) && h[4].operationState.Execute?
    requires forall i :: 0 <= i < 5 ==> h[i] == Recorded(n, i + 1, h[i].operationState, None)
    requires forall i :: 0 < i < 5 ==> CanTransition(h[i - 1].operationState, h[i].operationState)
    requires h[5] == Recorded(n, 6, Paused, Some(MUTATED_PAUSE))
    ensures Replay(h[..6]) == Some(BLANK.(machine := Some(Paused), previousTime := Time(6, 0), mutation := true,
                                          paused := Some(MUTATED_PAUSE)))
  {
    PlainPath(n, h, 5);
    PlainMove(n, h, 5, BLANK.(machine := Some(Execute), previousTime := Time(5, 0)));
  }

  lemma ResumedHistoryValid(n: Names, h: seq<JournalEntry>)
    requires n.Valid() && h == ResumedHistory(n)
    ensures forall i :: 0 <= i < |h| ==> ValidEntry(h[i]) && h[i].kind.Transition?
  {
  }

  lemma ResumedHistoryReplays(n: Names, h: seq<JournalEntry>)
    requires n.Valid() && h == ResumedHistory(n)
    ensures Replay(h) == Some(BLANK.(machine := Some(Discover), previousTime := Time(7, 0), mutation := true))
  {
    ResumedHistoryValid(n, h);
    ReplayToPause(n, h);
    ResumeStep(n, h, BLANK.(machine := Some(Paused), previousTime := Time(6, 0), mutation := true,
                            paused := Some(MUTATED_PAUSE)));
  }

  lemma {:induction false} TransitionsRestoreNothing(contract: ExecutionContract, entries: seq<JournalEntry>)
    requires forall i :: 0 <= i < |entries| ==> ValidEntry(entries[i]) && entries[i].kind.Transition?
    ensures RestoreFold(contract, entries) == Some(Restored(None, NO_BINDING, 0))
  {
    if entries != [] {
      TransitionsRestoreNothing(contract, entries[..|entries| - 1]);
    }
  }

  function OneStep(n: Names): ExecutionContract {
    var shape := StepShape("x", Human, "c", true, "never", true, 10, "done", "stop");
    ExecutionContract("wf", "step", "", None, [StepContract("s", shape, true, 1, ["k"], ["m"], false, false, None)], n.hash)
  }

  function NextRequest(n: Names): Request {
    Request(n.operationID, n.planID, 8, Time(8, 0))
  }

  lemma ResumedRequestRouted(n: Names, h: seq<JournalEntry>)
    requires n.Valid() && |h| == 7
    requires h[0] == Recorded(n, 1, Discover, None) && h[6] == Recorded(n, 7, Discover, None)
    requires Accepted(h) && RestoreFold(OneStep(n), h) == Some(Restored(None, NO_BINDING, 0))
    ensures RequestOutcome(IDLE, n.operationID, n.planID, Discover, NextRequest(n), OneStep(n), h).Routed?
  {
    assert RestoredController(h, n.operationID, n.planID, OneStep(n)) == Some(IDLE);
  }

  /** A resumed operation for which Request routes to CANCELLED while the
      validator refuses every record of that route. */
  lemma PreMutationRouteRefused(n: Names, h: seq<JournalEntry>, e: JournalEntry)
    requires n.Valid() && h == ResumedHistory(n) && RecordsNext(h, e, Cancelled)
    ensures Accepted(h)
    ensures RequestOutcome(IDLE, n.operationID, n.planID, Discover, NextRequest(n), OneStep(n), h).Routed?
    ensures !Accepted(h + [e])
  {
    ResumedHistoryValid(n, h);
    ResumedHistoryReplays(n, h);
    TransitionsRestoreNothing(OneStep(n), h);
    ResumedRequestRouted(n, h);
    assert MayMutate(h[5]);
    RouteRecordedIff(h, e, Cancelled);
  }

  // ----- Cancelled past the point of no return -----

  /** A step "s" done without mutation before the plan leaves DISCOVER. */
  function EarlyHistory(n: Names): seq<JournalEntry> {
    [Recorded(n, 1, Discover, None),
     JournalEntry(JOURNAL_SCHEMA, n.operationID, n.planID, n.hash, 2, Step, Time(2, 0), Discover,
                  Some(JournalStep("s", StepDone, Human, 1, Time(1, 0), Some(Time(2, 0)), false)), None, None)]
  }

  /** The one-step contract with its point of no return at the start of that step. */
  function PointAtStart(n: Names): ExecutionContract {
    OneStep(n).(pointOfNoReturn := "s", trigger := Some(StepStart))
  }

  lemma EarlyHistoryReplays(n: Names, h: seq<JournalEntry>)
    requires n.Valid() && h == EarlyHistory(n)
    ensures ValidEntry(h[0]) && ValidEntry(h[1]) && Accepted(h)
    ensures !AnyMayMutate(h)
  {
    PlainPath(n, h, 1);
    ReplayStep(h, 1);
    assert h[..2] == h;
  }

  lemma EarlyHistoryRestores(n: Names, h: seq<JournalEntry>)
    requires n.Valid() && h == EarlyHistory(n) && ValidEntry(h[0]) && ValidEntry(h[1])
    ensures RestoreFold(PointAtStart(n), h) == Some(Restored(None, NO_BINDING, 1))
  {
    var c := PointAtStart(n);
    assert h[..1] == [h[0]] && h[..1][..0] == [] && h[..2] == h;
    assert RestoreFold(c, []) == Some(Restored(None, NO_BINDING, 0));
    assert RestoreFold(c, h[..1]) == Some(Restored(None, NO_BINDING, 0));
  }

  lemma EarlyRequestRouted(n: Names, h: seq<JournalEntry>)
    requires n.Valid() && |h| == 2
    requires h[0] == Recorded(n, 1, Discover, None) && h[1] == EarlyHistory(n)[1]
    requires Accepted(h) && RestoreFold(PointAtStart(n), h) == Some(Restored(None, NO_BINDING, 1))
    ensures RequestOutcome(IDLE, n.operationID, n.planID, Discover, NextRequest(n).(sequence := 3), PointAtStart(n), h).Routed?
  {
    assert RestoredController(h, n.operationID, n.planID, PointAtStart(n)) == Some(IDLE);
  }

  lemma EarlyHistoryCrosses(n: Names, h: seq<JournalEntry>)
    requires h == EarlyHistory(n)
    ensures PointReached(PointAtStart(n), h)
  {
    var c := PointAtStart(n);
    assert c.steps[..0] == [];
    assert Crosses(c.steps, 0, StepStart, h[1]);
  }

  /** Code and validator alike let an operation be cancelled after its point of
      no return: the shortcut routes, and every record of the route is accepted. */
  lemma CancelledPastThePoint(n: Names, h: seq<JournalEntry>, e: JournalEntry)
    requires n.Valid() && h == EarlyHistory(n) && RecordsNext(h, e, Cancelled)
    ensures PointReached(PointAtStart(n), h)
    ensures RequestOutcome(IDLE, n.operationID, n.planID, Discover, NextRequest(n).(sequence := 3), PointAtStart(n), h).Routed?
    ensures Accepted(h + [e])
  {
    hide PointReached, PointAtStart, RequestOutcome, Replay, RestoreFold;
    EarlyHistoryReplays(n, h);
    EarlyHistoryRestores(n, h);
    EarlyHistoryCrosses(n, h);
    EarlyRequestRouted(n, h);
    RouteRecordedIff(h, e, Cancelled);
  }
}
