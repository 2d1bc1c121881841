/** The test harness: a one-way bootstrap, renewable test evidence and the admission of actions. */
module Harness {
  import opened Common
  import opened Text
  import opened Evidence

  /** One hour, in seconds. */
  const MAX_T8_LIFETIME: int := 3600
  const WF_TEST := "WF-TEST-01"
  const CAPABILITIES := ["compute.disks", "compute.firewalls", "compute.instances"]

  datatype Resources = Resources(
    network: string, roleBindings: string, serviceAccounts: string, wipeJob: string, scheduler: string, image: string)

  /** The approved bootstrap envelope; no transition touches it. */
  datatype Binding = Binding(
    projectID: string, environment: string, cls: string, manifestHash: string, plan: PlanIdentity, operationID: string,
    envelopeHash: string, controlGeneration: uint64, resources: Resources, capabilities: seq<string>,
    bootstrapSteps: seq<string>, rollbackSteps: seq<string>, approvedAt: Time, approvalValidUntil: Time)

  datatype Phase = Pending | Open
  datatype Usability = Unusable | Usable

  datatype Payload = Payload(
    binding: Binding, phase: Phase, openedAt: Option<Time>, usability: Usability, t8Revision: string,
    t8ObservedAt: Option<Time>, t8ValidUntil: Option<Time>, driftRevision: string, driftDetectedAt: Option<Time>)

  /** A payload under its integrity digest; an ideal digest is what it digests. */
  datatype HarnessState = HarnessState(payload: Payload, integrity: Payload)

  datatype T8Evidence = T8Evidence(revision: string, observedAt: Time, validUntil: Time)
  datatype Drift = Drift(revision: string, detectedAt: Time)

  // ----- Validity -----

  /** A positive window of canonical instants, no longer than `maximum` when that is positive. */
  predicate WindowOk(start: Time, end: Time, maximum: int) {
    start.Canonical() && end.Canonical() && end.After(start) &&
    (maximum > 0 ==> end.instant - start.instant <= maximum)
  }

  predicate T8Ok(e: T8Evidence) {
    IsDigest(e.revision) && WindowOk(e.observedAt, e.validUntil, MAX_T8_LIFETIME)
  }

  predicate FreshWindow(observedAt: Time, validUntil: Time, now: Time) {
    now.Canonical() && !now.Before(observedAt) && now.Before(validUntil)
  }

  predicate StepSet(values: seq<string>) {
    && values != [] && (forall i :: 0 <= i < |values| ==> IsStepID(values[i]))
    && forall i :: 0 < i < |values| ==> LexLess(values[i - 1], values[i])
  }

  predicate BindingOk(p: Patterns, b: Binding) {
    && p.project(b.projectID) && p.environmentName(b.environment) && b.cls == DISPOSABLE && IsDigest(b.manifestHash)
    && IsPlanID(b.plan.id) && IsDigest(b.plan.hash) && IsOperationID(b.operationID) && IsDigest(b.envelopeHash)
    && b.controlGeneration != 0
    && IsDigest(b.resources.network) && IsDigest(b.resources.roleBindings) && IsDigest(b.resources.serviceAccounts)
    && IsDigest(b.resources.wipeJob) && IsDigest(b.resources.scheduler) && IsDigest(b.resources.image)
    && b.capabilities == CAPABILITIES && StepSet(b.bootstrapSteps) && StepSet(b.rollbackSteps)
    && WindowOk(b.approvedAt, b.approvalValidUntil, 0)
  }

  predicate PendingOk(x: Payload) {
    && x.usability.Unusable? && x.t8Revision == "" && x.openedAt.None? && x.t8ObservedAt.None? && x.t8ValidUntil.None?
    && x.driftRevision == "" && x.driftDetectedAt.None?
  }

  predicate OpenOk(x: Payload) {
    && x.t8ObservedAt.Some? && x.t8ValidUntil.Some?
    && T8Ok(T8Evidence(x.t8Revision, x.t8ObservedAt.value, x.t8ValidUntil.value))
    && x.openedAt.Some? && !x.openedAt.value.Before(x.binding.approvedAt)
    && x.openedAt.value.Before(x.binding.approvalValidUntil) && x.openedAt.value.offset == 0
    && (if x.usability.Usable? then x.driftRevision == "" && x.driftDetectedAt.None?
        else IsDigest(x.driftRevision) && x.driftDetectedAt.Some? &&
             x.driftDetectedAt.value.After(x.t8ObservedAt.value) && x.driftDetectedAt.value.offset == 0)
  }

  predicate PayloadOk(p: Patterns, x: Payload) {
    BindingOk(p, x.binding) && (if x.phase.Pending? then PendingOk(x) else OpenOk(x))
  }

  predicate Valid(p: Patterns, s: HarnessState) { PayloadOk(p, s.payload) && s.integrity == s.payload }

  /** Sealing checks the payload before it is digested. */
  function Seal(p: Patterns, x: Payload): (s: Option<HarnessState>)
    ensures s.Some? ==> Valid(p, s.value) && s.value.payload == x
    ensures s.None? ==> !PayloadOk(p, x)
  {
    if PayloadOk(p, x) then Some(HarnessState(x, x)) else None
  }

  // ----- Transitions -----

  function NewPending(p: Patterns, b: Binding): (s: Option<HarnessState>)
    ensures s.Some? <==> BindingOk(p, b)
    ensures s.Some? ==> Valid(p, s.value) && s.value.payload.binding == b && s.value.payload.phase.Pending?
  {
    Seal(p, Payload(b, Pending, None, Unusable, "", None, None, "", None))
  }

  function OpenAfterT8(p: Patterns, s: HarnessState, e: T8Evidence, now: Time): Option<HarnessState> {
    var x := s.payload;
    if !Valid(p, s) || !x.phase.Pending? then None
    else if !T8Ok(e) || !FreshWindow(e.observedAt, e.validUntil, now) then None
    else if now.Before(x.binding.approvedAt) || !now.Before(x.binding.approvalValidUntil) then None
    else if e.observedAt.Before(x.binding.approvedAt) || !e.observedAt.Before(x.binding.approvalValidUntil) then None
    else Seal(p, x.(phase := Open, openedAt := Some(now), usability := Usable, t8Revision := e.revision,
                    t8ObservedAt := Some(e.observedAt), t8ValidUntil := Some(e.validUntil)))
  }

  function MarkTestsUnusable(p: Patterns, s: HarnessState, d: Drift): Option<HarnessState> {
    var x := s.payload;
    if !Valid(p, s) || !x.phase.Open? then None
    else if !IsDigest(d.revision) || d.detectedAt.IsZero() || x.t8ObservedAt.None? ||
            !d.detectedAt.After(x.t8ObservedAt.value) then None
    else if d.detectedAt.offset != 0 then None
    else if x.usability.Unusable? && x.driftDetectedAt.None? then None
    else if x.usability.Unusable? && d.revision == x.driftRevision && d.detectedAt.Equal(x.driftDetectedAt.value) then Some(s)
    else if x.usability.Unusable? && !d.detectedAt.After(x.driftDetectedAt.value) then None
    else Seal(p, x.(usability := Unusable, driftRevision := d.revision, driftDetectedAt := Some(d.detectedAt)))
  }

  function RestoreTestsUsable(p: Patterns, s: HarnessState, e: T8Evidence, now: Time): Option<HarnessState> {
    var x := s.payload;
    if !Valid(p, s) || !x.phase.Open? then None
    else if !T8Ok(e) || !FreshWindow(e.observedAt, e.validUntil, now) then None
    else if !x.usability.Unusable? || x.driftDetectedAt.None? || !e.observedAt.After(x.driftDetectedAt.value) then None
    else Seal(p, x.(usability := Usable, t8Revision := e.revision, t8ObservedAt := Some(e.observedAt),
                    t8ValidUntil := Some(e.validUntil), driftRevision := "", driftDetectedAt := None))
  }

  function RenewT8(p: Patterns, s: HarnessState, e: T8Evidence, now: Time): Option<HarnessState> {
    var x := s.payload;
    if !Valid(p, s) || !x.phase.Open? || !x.usability.Usable? || x.t8ObservedAt.None? then None
    else if !T8Ok(e) || !FreshWindow(e.observedAt, e.validUntil, now) then None
    else if !e.observedAt.After(x.t8ObservedAt.value) then None
    else Seal(p, x.(t8Revision := e.revision, t8ObservedAt := Some(e.observedAt), t8ValidUntil := Some(e.validUntil)))
  }

  // ----- Admission -----

  datatype Action = BootstrapStep | RollbackStep | IntegrationTest | DestructiveTest | UnrelatedMutation | OtherAction

  /** The independently sourced observation a state is compared with. */
  datatype Expectation = Expectation(
    binding: Binding, phase: Phase, openedAt: Time, usability: Usability, t8Revision: string, t8ObservedAt: Time,
    t8ValidUntil: Time, driftRevision: string, driftDetectedAt: Time)

  datatype Request = Request(
    action: Action, workflowID: string, plan: PlanIdentity, operationID: string, envelopeHash: string, stepID: string,
    t8Revision: string, expected: Expectation, now: Time)

  predicate OptionalTimeMatches(actual: Option<Time>, expected: Time) {
    if actual.None? then expected.IsZero() else actual.value.Equal(expected)
  }

  predicate SameBinding(a: Binding, b: Binding) {
    && a.(approvedAt := b.approvedAt, approvalValidUntil := b.approvalValidUntil) == b
    && a.approvedAt.Equal(b.approvedAt) && a.approvalValidUntil.Equal(b.approvalValidUntil)
  }

  predicate Expected(s: HarnessState, e: Expectation) {
    var x := s.payload;
    && SameBinding(x.binding, e.binding) && x.phase == e.phase && OptionalTimeMatches(x.openedAt, e.openedAt)
    && x.usability == e.usability && x.driftRevision == e.driftRevision
    && OptionalTimeMatches(x.driftDetectedAt, e.driftDetectedAt)
    && WindowOk(e.binding.approvedAt, e.binding.approvalValidUntil, 0)
    && e.binding.capabilities == CAPABILITIES
    && (if x.phase.Pending? then e.t8Revision == "" && e.t8ObservedAt.IsZero() && e.t8ValidUntil.IsZero()
        else x.t8ObservedAt.Some? && x.t8ValidUntil.Some? && e.t8Revision == x.t8Revision &&
             e.t8ObservedAt.Equal(x.t8ObservedAt.value) && e.t8ValidUntil.Equal(x.t8ValidUntil.value) &&
             T8Ok(T8Evidence(e.t8Revision, e.t8ObservedAt, e.t8ValidUntil)))
  }

  predicate AdmitPending(s: HarnessState, r: Request) {
    var b := s.payload.binding;
    && (r.action.BootstrapStep? || r.action.RollbackStep?)
    && r.workflowID == WF_TEST && r.plan == b.plan && r.operationID == b.operationID && r.envelopeHash == b.envelopeHash
    && r.stepID in (if r.action.RollbackStep? then b.rollbackSteps else b.bootstrapSteps)
    && !r.now.Before(b.approvedAt)
    && (r.action.BootstrapStep? ==> r.now.Before(b.approvalValidUntil))
  }

  predicate AdmitOpen(s: HarnessState, r: Request) {
    var x := s.payload;
    match r.action
    case IntegrationTest | DestructiveTest =>
      && x.usability.Usable? && x.t8ValidUntil.Some? && x.t8ObservedAt.Some?
      && r.now.Before(x.t8ValidUntil.value) && !r.now.Before(x.t8ObservedAt.value) && r.t8Revision == x.t8Revision
    case UnrelatedMutation => true
    case BootstrapStep | RollbackStep => r.workflowID == WF_TEST
    case OtherAction => false
  }

  predicate AdmitHarnessAction(p: Patterns, s: HarnessState, r: Request) {
    && Valid(p, s) && Expected(s, r.expected) && r.now.Canonical()
    && (if s.payload.phase.Pending? then AdmitPending(s, r) else AdmitOpen(s, r))
  }

  // ----- Runs -----

  /** Something a caller attempts on the current state. */
  datatype Attempt =
    | AttemptOpen(evidence: T8Evidence, now: Time)
    | AttemptDrift(drift: Drift)
    | AttemptRestore(evidence: T8Evidence, now: Time)
    | AttemptRenew(evidence: T8Evidence, now: Time)
    | AttemptAction(request: Request)

  function Apply(p: Patterns, s: HarnessState, a: Attempt): Option<HarnessState> {
    match a
    case AttemptOpen(e, now) => OpenAfterT8(p, s, e, now)
    case AttemptDrift(d) => MarkTestsUnusable(p, s, d)
    case AttemptRestore(e, now) => RestoreTestsUsable(p, s, e, now)
    case AttemptRenew(e, now) => RenewT8(p, s, e, now)
    case AttemptAction(r) => if AdmitHarnessAction(p, s, r) then Some(s) else None
  }

  /** A refused attempt leaves the state as it was. */
  function Next(p: Patterns, s: HarnessState, a: Attempt): HarnessState {
    if Apply(p, s, a).Some? then Apply(p, s, a).value else s
  }

  /** The state after every attempt of the run. */
  function Run(p: Patterns, s: HarnessState, run: seq<Attempt>): HarnessState {
    if run == [] then s else Next(p, Run(p, s, run[..|run| - 1]), run[|run| - 1])
  }

  /** Attempt `k` of the run was accepted. */
  predicate AcceptedAt(p: Patterns, s: HarnessState, run: seq<Attempt>, k: nat)
    requires k < |run|
  {
    Apply(p, Run(p, s, run[..k]), run[k]).Some?
  }

  predicate IsTest(a: Attempt) {
    a.AttemptAction? && (a.request.action.IntegrationTest? || a.request.action.DestructiveTest?)
  }

  predicate BringsT8(a: Attempt) {
    a.AttemptOpen? || a.AttemptRestore? || a.AttemptRenew?
  }

  lemma NextIsValid(p: Patterns, s: HarnessState, a: Attempt)
    requires Valid(p, s)
    ensures Valid(p, Next(p, s, a))
  {
  }

  lemma {:induction false} RunIsValid(p: Patterns, s: HarnessState, run: seq<Attempt>)
    requires Valid(p, s)
    ensures Valid(p, Run(p, s, run))
  {
    hide Valid;
    if run != [] {
      RunIsValid(p, s, run[..|run| - 1]);
      NextIsValid(p, Run(p, s, run[..|run| - 1]), run[|run| - 1]);
    }
  }

  /** What later states keep of earlier ones. */
  predicate Later(s: HarnessState, t: HarnessState) {
    && t.payload.binding == s.payload.binding
    && (s.payload.phase.Open? ==>
          t.payload.phase.Open? && t.payload.openedAt == s.payload.openedAt &&
          s.payload.t8ObservedAt.Some? && t.payload.t8ObservedAt.Some? &&
          s.payload.t8ObservedAt.value.instant <= t.payload.t8ObservedAt.value.instant)
  }

  lemma NextIsLater(p: Patterns, s: HarnessState, a: Attempt)
    requires Valid(p, s)
    ensures Later(s, Next(p, s, a))
  {
    hide BindingOk;
  }

  lemma RunSplits(p: Patterns, s: HarnessState, run: seq<Attempt>)
    requires run != []
    ensures Run(p, s, run) == Next(p, Run(p, s, run[..|run| - 1]), run[|run| - 1])
  {
  }

  /** Along every run the binding and the opening time never change, the phase
      never returns to pending and the test evidence never ages backwards. */
  lemma {:induction false} RunsOnlyAdvance(p: Patterns, s: HarnessState, run: seq<Attempt>, k: nat)
    requires Valid(p, s) && k <= |run|
    ensures Later(Run(p, s, run[..k]), Run(p, s, run))
    decreases |run|
  {
    hide Valid, Next;
    RunIsValid(p, s, run[..k]);
    if k == |run| {
      assert run[..k] == run;
      LaterItself(p, Run(p, s, run));
    } else {
      var shorter := run[..|run| - 1];
      RunsOnlyAdvance(p, s, shorter, k);
      assert shorter[..k] == run[..k];
      RunIsValid(p, s, shorter);
      NextIsLater(p, Run(p, s, shorter), run[|run| - 1]);
    }
  }

  lemma LaterItself(p: Patterns, s: HarnessState)
    requires Valid(p, s)
    ensures Later(s, s)
  {
  }

  /** Accepted test evidence is what the state then holds, and is newer than what it replaces. */
  lemma T8Recorded(p: Patterns, s: HarnessState, a: Attempt)
    requires Valid(p, s) && BringsT8(a) && Apply(p, s, a).Some?
    ensures Next(p, s, a).payload.phase.Open? && Next(p, s, a).payload.usability.Usable?
    ensures Next(p, s, a).payload.t8Revision == a.evidence.revision
    ensures Next(p, s, a).payload.t8ObservedAt == Some(a.evidence.observedAt)
    ensures Next(p, s, a).payload.t8ValidUntil == Some(a.evidence.validUntil)
    ensures Next(p, s, a).payload.driftDetectedAt.None?
    ensures s.payload.phase.Open? ==>
              s.payload.t8ObservedAt.Some? && s.payload.t8ObservedAt.value.Before(a.evidence.observedAt)
    ensures a.AttemptOpen? ==> s.payload.phase.Pending?
  {
    hide BindingOk;
  }

  /** Test evidence accepted later was observed strictly later. */
  lemma T8TimesIncrease(p: Patterns, s: HarnessState, run: seq<Attempt>, i: nat, j: nat)
    requires Valid(p, s) && i < j < |run| && BringsT8(run[i]) && BringsT8(run[j])
    requires AcceptedAt(p, s, run, i) && AcceptedAt(p, s, run, j)
    ensures run[i].evidence.observedAt.Before(run[j].evidence.observedAt)
  {
    hide Valid, Next, Apply, Later;
    RunIsValid(p, s, run[..i]);
    RunIsValid(p, s, run[..j]);
    T8Recorded(p, Run(p, s, run[..i]), run[i]);
    T8Recorded(p, Run(p, s, run[..j]), run[j]);
    RunSplits(p, s, run[..i + 1]);
    assert run[..i + 1][..i] == run[..i];
    RunsOnlyAdvance(p, s, run[..j], i + 1);
    assert run[..j][..i + 1] == run[..i + 1];
    LaterKeepsT8(Run(p, s, run[..i + 1]), Run(p, s, run[..j]));
  }

  lemma LaterKeepsT8(s: HarnessState, t: HarnessState)
    requires Later(s, t) && s.payload.phase.Open?
    ensures t.payload.phase.Open? && s.payload.t8ObservedAt.Some? && t.payload.t8ObservedAt.Some?
    ensures s.payload.t8ObservedAt.value.instant <= t.payload.t8ObservedAt.value.instant
  {
  }

  /** The state has taken account of a drift detected at `d`: test evidence in
      use is newer, or the recorded drift boundary is no older. */
  predicate Answers(s: HarnessState, d: Time) {
    && s.payload.phase.Open?
    && (if s.payload.usability.Usable? then s.payload.t8ObservedAt.Some? && d.Before(s.payload.t8ObservedAt.value)
        else s.payload.driftDetectedAt.Some? && d.instant <= s.payload.driftDetectedAt.value.instant)
  }

  lemma DriftAnswered(p: Patterns, s: HarnessState, d: Drift)
    requires Valid(p, s) && MarkTestsUnusable(p, s, d).Some?
    ensures Answers(MarkTestsUnusable(p, s, d).value, d.detectedAt)
  {
    hide BindingOk;
  }

  lemma NextAnswers(p: Patterns, s: HarnessState, a: Attempt, d: Time)
    requires Valid(p, s) && Answers(s, d)
    ensures Answers(Next(p, s, a), d)
  {
    hide BindingOk;
  }

  lemma {:induction false} RunAnswers(p: Patterns, s: HarnessState, run: seq<Attempt>, i: nat)
    requires Valid(p, s) && i < |run| && run[i].AttemptDrift? && AcceptedAt(p, s, run, i)
    ensures Answers(Run(p, s, run), run[i].drift.detectedAt)
    decreases |run|
  {
    hide Valid, Answers, MarkTestsUnusable;
    var shorter, last := run[..|run| - 1], run[|run| - 1];
    RunIsValid(p, s, shorter);
    assert shorter[..i] == run[..i];
    if i == |run| - 1 {
      DriftAnswered(p, Run(p, s, shorter), last.drift);
    } else {
      RunAnswers(p, s, shorter, i);
      NextAnswers(p, Run(p, s, shorter), last, run[i].drift.detectedAt);
    }
  }

  /** Every admitted test runs on evidence at most an hour old that is newer than
      every drift recorded before it. */
  lemma AdmittedTestIsBacked(p: Patterns, s: HarnessState, run: seq<Attempt>, j: nat)
    requires Valid(p, s) && j < |run| && IsTest(run[j]) && AcceptedAt(p, s, run, j)
    ensures var x := Run(p, s, run[..j]).payload;
            && x.t8ObservedAt.Some?
            && x.t8ObservedAt.value.instant <= run[j].request.now.instant < x.t8ObservedAt.value.instant + MAX_T8_LIFETIME
            && run[j].request.t8Revision == x.t8Revision
            && forall i :: 0 <= i < j && run[i].AttemptDrift? && AcceptedAt(p, s, run, i) ==>
                 run[i].drift.detectedAt.Before(x.t8ObservedAt.value)
  {
    hide BindingOk, Next, SameBinding;
    var before := run[..j];
    RunIsValid(p, s, before);
    forall i | 0 <= i < j && run[i].AttemptDrift? && AcceptedAt(p, s, run, i)
      ensures Answers(Run(p, s, before), run[i].drift.detectedAt)
    {
      assert before[..i] == run[..i];
      RunAnswers(p, s, before, i);
    }
  }

  lemma OnlyRestoreRepairs(p: Patterns, s: HarnessState, a: Attempt)
    requires Valid(p, s) && s.payload.phase.Open? && s.payload.usability.Unusable?
    ensures Next(p, s, a).payload.phase.Open?
    ensures Next(p, s, a).payload.usability.Usable? ==> a.AttemptRestore? && Apply(p, s, a).Some?
  {
    hide BindingOk;
  }

  lemma {:induction false} RepairFound(p: Patterns, s: HarnessState, run: seq<Attempt>)
    requires Valid(p, s) && s.payload.phase.Open? && s.payload.usability.Unusable?
    requires Run(p, s, run).payload.usability.Usable?
    ensures exists k :: 0 <= k < |run| && run[k].AttemptRestore? && AcceptedAt(p, s, run, k)
  {
    hide Valid, Next, Apply;
    if run != [] {
      var shorter, last := run[..|run| - 1], run[|run| - 1];
      RunIsValid(p, s, shorter);
      if Run(p, s, shorter).payload.usability.Usable? {
        RepairFound(p, s, shorter);
        var k :| 0 <= k < |shorter| && shorter[k].AttemptRestore? && AcceptedAt(p, s, shorter, k);
        assert shorter[..k] == run[..k] && run[k] == shorter[k];
        assert AcceptedAt(p, s, run, k);
      } else {
        RunsOnlyAdvance(p, s, shorter, 0);
        assert shorter[..0] == [];
        StaysOpen(s, Run(p, s, shorter));
        OnlyRestoreRepairs(p, Run(p, s, shorter), last);
        assert AcceptedAt(p, s, run, |run| - 1);
      }
    }
  }

  lemma StaysOpen(s: HarnessState, t: HarnessState)
    requires Later(s, t) && s.payload.phase.Open?
    ensures t.payload.phase.Open?
  {
  }

  lemma {:induction false} RunsCompose(p: Patterns, s: HarnessState, run: seq<Attempt>, k: nat)
    requires k <= |run|
    ensures Run(p, s, run) == Run(p, Run(p, s, run[..k]), run[k..])
    decreases |run|
  {
    hide Next;
    if k == |run| {
      assert run[..k] == run && run[k..] == [];
    } else {
      var shorter := run[..|run| - 1];
      RunsCompose(p, s, shorter, k);
      assert shorter[..k] == run[..k];
      var rest := run[k..];
      assert rest[..|rest| - 1] == shorter[k..] && rest[|rest| - 1] == run[|run| - 1];
    }
  }

  /** After an accepted drift no test is admitted until a restore is accepted:
      renewing evidence cannot repair a drift. */
  lemma DriftNeedsRestore(p: Patterns, s: HarnessState, run: seq<Attempt>, i: nat, j: nat)
    requires Valid(p, s) && i < j < |run| && run[i].AttemptDrift? && AcceptedAt(p, s, run, i)
    requires IsTest(run[j]) && AcceptedAt(p, s, run, j)
    ensures exists k :: i < k < j && run[k].AttemptRestore? && AcceptedAt(p, s, run, k)
  {
    hide Valid, Next, Apply, Run, IsTest, MarkTestsUnusable;
    var upTo := run[..i + 1];
    RunIsValid(p, s, run[..i]);
    assert upTo[..i] == run[..i];
    RunSplits(p, s, upTo);
    DriftDisables(p, Run(p, s, run[..i]), run[i]);
    var t := Run(p, s, upTo);
    RunIsValid(p, s, upTo);
    RunIsValid(p, s, run[..j]);
    RunsOnlyAdvance(p, s, run[..j], i + 1);
    assert run[..j][..i + 1] == upTo;
    StaysOpen(t, Run(p, s, run[..j]));
    TestNeedsUsable(p, Run(p, s, run[..j]), run[j]);
    var middle := run[i + 1..j];
    assert run[..j][..i + 1] == upTo && run[..j][i + 1..] == middle;
    RunsCompose(p, s, run[..j], i + 1);
    RepairFound(p, t, middle);
    var m :| 0 <= m < |middle| && middle[m].AttemptRestore? && AcceptedAt(p, t, middle, m);
    var k := i + 1 + m;
    assert run[..k][..i + 1] == upTo;
    assert run[..k][i + 1..] == run[i + 1..k] == middle[..m] by {
      TakeOfMiddle(run, i + 1, j, m);
    }
    RunsCompose(p, s, run[..k], i + 1);
    assert run[k] == middle[m];
    assert AcceptedAt(p, s, run, k);
  }

  lemma TakeOfMiddle<T>(s: seq<T>, from: nat, to: nat, m: nat)
    requires from <= to <= |s| && m <= to - from
    ensures s[..from + m][from..] == s[from..from + m] == s[from..to][..m]
  {
  }

  lemma TestNeedsUsable(p: Patterns, s: HarnessState, a: Attempt)
    requires Valid(p, s) && IsTest(a) && Apply(p, s, a).Some? && s.payload.phase.Open?
    ensures s.payload.usability.Usable?
  {
    hide BindingOk, Expected;
  }

  lemma DriftDisables(p: Patterns, s: HarnessState, a: Attempt)
    requires Valid(p, s) && a.AttemptDrift? && Apply(p, s, a).Some?
    ensures Next(p, s, a).payload.phase.Open? && Next(p, s, a).payload.usability.Unusable?
  {
    hide BindingOk;
  }

  // ----- The blockade -----

  /** Something other than the approved envelope was admitted. */
  predicate BeyondEnvelope(a: Attempt) {
    a.AttemptAction? && !(a.request.action.BootstrapStep? || a.request.action.RollbackStep?)
  }

  lemma {:induction false} OpeningFound(p: Patterns, s: HarnessState, run: seq<Attempt>)
    requires Valid(p, s) && s.payload.phase.Pending? && Run(p, s, run).payload.phase.Open?
    ensures exists i :: 0 <= i < |run| && run[i].AttemptOpen? && AcceptedAt(p, s, run, i)
  {
    hide Valid;
    if run != [] {
      var shorter, last := run[..|run| - 1], run[|run| - 1];
      RunIsValid(p, s, shorter);
      if Run(p, s, shorter).payload.phase.Open? {
        OpeningFound(p, s, shorter);
        var i :| 0 <= i < |shorter| && shorter[i].AttemptOpen? && AcceptedAt(p, s, shorter, i);
        assert shorter[..i] == run[..i] && run[i] == shorter[i];
        assert AcceptedAt(p, s, run, i);
      } else {
        OnlyOpenOpens(p, Run(p, s, shorter), last);
        assert AcceptedAt(p, s, run, |run| - 1);
      }
    }
  }

  lemma OnlyOpenOpens(p: Patterns, s: HarnessState, a: Attempt)
    requires Valid(p, s) && s.payload.phase.Pending? && Next(p, s, a).payload.phase.Open?
    ensures a.AttemptOpen? && Apply(p, s, a).Some?
  {
    hide BindingOk;
  }

  /** From a pending state nothing beyond the approved envelope is admitted until
      a complete test result has opened the harness, which happens once. */
  lemma BlockadeUntilOpened(p: Patterns, s: HarnessState, run: seq<Attempt>, j: nat)
    requires Valid(p, s) && s.payload.phase.Pending? && j < |run|
    requires BeyondEnvelope(run[j]) && AcceptedAt(p, s, run, j)
    ensures exists i :: 0 <= i < j && run[i].AttemptOpen? && AcceptedAt(p, s, run, i)
  {
    hide BindingOk, Valid, Expected, Next;
    var before := run[..j];
    OpeningFound(p, s, before);
    var i :| 0 <= i < |before| && before[i].AttemptOpen? && AcceptedAt(p, s, before, i);
    assert before[..i] == run[..i];
    assert AcceptedAt(p, s, run, i);
  }

  lemma OpenedOnce(p: Patterns, s: HarnessState, run: seq<Attempt>, i: nat, j: nat)
    requires Valid(p, s) && i < j < |run| && run[i].AttemptOpen? && AcceptedAt(p, s, run, i)
    ensures !(run[j].AttemptOpen? && AcceptedAt(p, s, run, j))
  {
    hide Valid, Next, Apply, Later;
    RunIsValid(p, s, run[..i]);
    RunIsValid(p, s, run[..j]);
    T8Recorded(p, Run(p, s, run[..i]), run[i]);
    RunSplits(p, s, run[..i + 1]);
    assert run[..i + 1][..i] == run[..i];
    RunsOnlyAdvance(p, s, run[..j], i + 1);
    assert run[..j][..i + 1] == run[..i + 1];
    LaterKeepsT8(Run(p, s, run[..i + 1]), Run(p, s, run[..j]));
    if run[j].AttemptOpen? && AcceptedAt(p, s, run, j) {
      T8Recorded(p, Run(p, s, run[..j]), run[j]);
    }
  }

  // ----- From the new harness -----

  /** The valid pending states are exactly the new ones. */
  lemma PendingIsNew(p: Patterns, s: HarnessState)
    ensures Valid(p, s) && s.payload.phase.Pending? <==> NewPending(p, s.payload.binding) == Some(s)
  {
    hide BindingOk;
  }

  /** Attempt `k` of the run opened the harness. */
  predicate OpenedAt(p: Patterns, s: HarnessState, run: seq<Attempt>, k: nat)
    requires k < |run|
  {
    run[k].AttemptOpen? && AcceptedAt(p, s, run, k)
  }

  /** Whatever is attempted on a new harness: its state stays valid under the
      approved binding, it is opened at most once, and nothing beyond the
      envelope is admitted before that opening. */
  lemma NewHarnessRuns(p: Patterns, b: Binding, run: seq<Attempt>)
    requires NewPending(p, b).Some?
    ensures var s := NewPending(p, b).value;
            && Valid(p, Run(p, s, run)) && Run(p, s, run).payload.binding == b
            && (forall i, j ::
                  (0 <= i < |run| && 0 <= j < |run| && OpenedAt(p, s, run, i) && OpenedAt(p, s, run, j)) ==> i == j)
            && (forall j :: (0 <= j < |run| && BeyondEnvelope(run[j]) && AcceptedAt(p, s, run, j)) ==>
                  exists i :: 0 <= i < j && OpenedAt(p, s, run, i))
  {
    var s := NewPending(p, b).value;
    hide Valid, Next, BeyondEnvelope, Apply;
    RunIsValid(p, s, run);
    RunsOnlyAdvance(p, s, run, 0);
    assert run[..0] == [];
    forall i, j | 0 <= i < j < |run| && OpenedAt(p, s, run, i) ensures !OpenedAt(p, s, run, j) {
      OpenedOnce(p, s, run, i, j);
    }
    forall j | 0 <= j < |run| && BeyondEnvelope(run[j]) && AcceptedAt(p, s, run, j)
      ensures exists i :: 0 <= i < j && OpenedAt(p, s, run, i)
    {
      BlockadeUntilOpened(p, s, run, j);
      var i :| 0 <= i < j && run[i].AttemptOpen? && AcceptedAt(p, s, run, i);
      assert OpenedAt(p, s, run, i);
    }
  }
}
