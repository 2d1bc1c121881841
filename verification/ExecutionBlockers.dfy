/** The blockers of a bound plan, and the permission set that a plan without any is pinned to. */
module ExecutionBlockers {
  import opened Common
  import opened Text
  import opened Collections
  import opened Contracts
  import opened ExecutionGate

  // ----- The contract -----

  predicate KindAllowed(c: StepContract, target: PlanResource) { target.kind in c.targetKinds }

  predicate RecoveryCovers(assets: seq<seq<PlanResource>>, target: PlanResource) {
    exists i :: 0 <= i < |assets| && target in assets[i]
  }

  /** One plan step is its contract's step, bound to admissible targets. */
  predicate StepMatches(plan: Plan, s: PlanStep, c: StepContract) {
    && s.id == c.id && s.shape == c.shape
    && (forall t :: t in s.targets ==> KindAllowed(c, t))
    && (c.requiresRecovery ==> forall t :: t in s.targets ==> RecoveryCovers(plan.recoveryAssets, t))
  }

  function RequiredTuple(s: PlanStep, target: PlanResource, permission: string): Tuple {
    Tuple(s.id, s.shape.identity, permission, target)
  }

  /** The tuples one step needs: each required permission on each target. */
  ghost predicate Needs(s: PlanStep, c: StepContract, x: Tuple) {
    x.stepID == s.id && x.identity == s.shape.identity && x.permission in c.requiredPermissions && x.resource in s.targets
  }

  /** The product of contract steps, plan targets and required permissions. */
  ghost predicate Required(plan: Plan, contract: ExecutionContract, x: Tuple) {
    exists i :: 0 <= i < |plan.steps| && i < |contract.steps| && Needs(plan.steps[i], contract.steps[i], x)
  }

  /** A contract as constructed: its permission names are well-formed. */
  ghost predicate ContractSound(n: Names, contract: ExecutionContract) {
    forall c, permission :: c in contract.steps && permission in c.requiredPermissions ==>
      n.permission(permission) && NoNul(permission)
  }

  predicate SameWorkflow(plan: Plan, contract: ExecutionContract) {
    && contract.workflowID == plan.workflowID && |contract.steps| == |plan.steps|
    && contract.rollbackBoundary == plan.rollbackBoundary && contract.pointOfNoReturn == plan.pointOfNoReturn
    && contract.trigger == plan.trigger
  }

  predicate ApprovalMet(plan: Plan, contract: ExecutionContract) {
    forall c :: c in contract.steps ==>
      c.minimumApproval <= plan.approvalClass && (c.mutation ==> plan.approvalClass != READ)
  }

  predicate RecoveryMet(plan: Plan, contract: ExecutionContract) {
    forall c :: c in contract.steps ==> c.requiresRecovery ==> plan.recoveryAssets != []
  }

  /** The exposure requirement of the last step that has one. */
  function LastExposure(steps: seq<StepContract>): Option<ExposureRequirement> {
    if steps == [] then None
    else
      var last := steps[|steps| - 1];
      if last.exposure.Some? then last.exposure else LastExposure(steps[..|steps| - 1])
  }

  /** Keys of every target of a step with an exposure requirement. */
  ghost function ExposedKeys(plan: Plan, contract: ExecutionContract): set<string> {
    set i, t | 0 <= i < |plan.steps| && i < |contract.steps| && contract.steps[i].exposure.Some? && t in plan.steps[i].targets
      :: ResourceKey(t)
  }

  predicate ExposureMatches(n: Names, plan: Plan, requirement: Option<ExposureRequirement>, keys: set<string>) {
    if requirement.None? then plan.exposure == NO_EXPOSURE && plan.controls.None?
    else
      var r := requirement.value;
      && plan.exposure == r.delta && plan.controls.Some?
      && plan.controls.value.profile == r.profile && plan.controls.value.internetWide == r.internetWide
      && plan.controls.value.simulation == r.simulation && n.exposureTLS(r.delta, plan.controls.value.tls)
      && |plan.controls.value.targets| == |keys|
      && forall t :: t in plan.controls.value.targets ==> ResourceKey(t) in keys
  }

  /** A target of a step with an exposure requirement. */
  ghost predicate Exposed(plan: Plan, contract: ExecutionContract, r: PlanResource) {
    exists i :: 0 <= i < |plan.steps| && i < |contract.steps| && contract.steps[i].exposure.Some? && r in plan.steps[i].targets
  }

  /** Everything the contract asks of the plan; the permission clause is set equality. */
  ghost predicate ContractMet(n: Names, plan: Plan, contract: ExecutionContract) {
    && SameWorkflow(plan, contract)
    && (forall i :: 0 <= i < |plan.steps| ==> StepMatches(plan, plan.steps[i], contract.steps[i]))
    && ApprovalMet(plan, contract) && RecoveryMet(plan, contract)
    && ExposureMatches(n, plan, LastExposure(contract.steps), ExposedKeys(plan, contract))
    && PermissionsExact(plan, contract)
  }

  /** The plan asks for exactly the product: nothing more, nothing less. */
  ghost predicate PermissionsExact(plan: Plan, contract: ExecutionContract) {
    forall x :: (exists p :: p in plan.permissions && TupleOf(p) == x) <==> Required(plan, contract, x)
  }

  // ----- Collecting what the steps need -----

  /** `keys` are the keys of what the first `i` steps need. */
  ghost predicate Collected(plan: Plan, contract: ExecutionContract, i: nat, keys: set<string>) {
    && i <= |plan.steps| == |contract.steps|
    && forall k :: k in keys <==>
         exists j, x :: 0 <= j < i && Needs(plan.steps[j], contract.steps[j], x) && TupleKey(x) == k
  }

  ghost predicate CollectedExposed(plan: Plan, contract: ExecutionContract, i: nat, keys: set<string>) {
    && i <= |plan.steps| == |contract.steps|
    && forall k :: k in keys <==>
         exists j, t :: 0 <= j < i && contract.steps[j].exposure.Some? && t in plan.steps[j].targets && ResourceKey(t) == k
  }

  ghost predicate StepKeys(s: PlanStep, c: StepContract, keys: set<string>) {
    forall k :: k in keys <==> exists x :: Needs(s, c, x) && TupleKey(x) == k
  }

  /** The keys of one target. */
  method TargetKeys(s: PlanStep, target: PlanResource, required: seq<string>) returns (keys: set<string>)
    ensures forall k :: k in keys <==> exists m :: m in required && TupleKey(RequiredTuple(s, target, m)) == k
  {
    hide TupleKey;
    keys := {};
    for i := 0 to |required|
      invariant forall k :: k in keys <==> exists j :: 0 <= j < i && TupleKey(RequiredTuple(s, target, required[j])) == k
    {
      keys := keys + {TupleKey(RequiredTuple(s, target, required[i]))};
    }
    forall k ensures k in keys <==> exists m :: m in required && TupleKey(RequiredTuple(s, target, m)) == k {
      if k in keys {
        var j :| 0 <= j < |required| && TupleKey(RequiredTuple(s, target, required[j])) == k;
        assert required[j] in required;
      }
      if m :| m in required && TupleKey(RequiredTuple(s, target, m)) == k {
        var j :| 0 <= j < |required| && required[j] == m;
      }
    }
  }

  /** One step of the contract: whether it matches, and what it needs when it does. */
  method CheckStep(plan: Plan, s: PlanStep, c: StepContract) returns (ok: bool, keys: set<string>, exposed: set<string>)
    ensures ok <==> StepMatches(plan, s, c)
    ensures ok ==> StepKeys(s, c, keys)
    ensures ok ==> forall k :: k in exposed <==> c.exposure.Some? && exists t :: t in s.targets && ResourceKey(t) == k
  {
    hide TupleKey, ResourceKey, RecoveryCovers, KindAllowed;
    keys, exposed := {}, {};
    if s.id != c.id || s.shape != c.shape {
      return false, {}, {};
    }
    ok := true;
    for i := 0 to |s.targets|
      invariant ok <==> forall k :: 0 <= k < i ==>
                  KindAllowed(c, s.targets[k]) && (c.requiresRecovery ==> RecoveryCovers(plan.recoveryAssets, s.targets[k]))
      invariant ok ==> forall k :: k in keys <==>
                  exists j, m :: 0 <= j < i && m in c.requiredPermissions && TupleKey(RequiredTuple(s, s.targets[j], m)) == k
      invariant ok ==> forall k :: k in exposed <==>
                  c.exposure.Some? && exists j :: 0 <= j < i && ResourceKey(s.targets[j]) == k
    {
      var target := s.targets[i];
      if !KindAllowed(c, target) {
        ok := false;
      } else {
        var more := TargetKeys(s, target, c.requiredPermissions);
        keys := keys + more;
        if c.requiresRecovery && !RecoveryCovers(plan.recoveryAssets, target) {
          ok := false;
        }
        if c.exposure.Some? {
          exposed := exposed + {ResourceKey(target)};
        }
      }
    }
    StepGathered(plan, s, c, ok, keys, exposed);
  }

  lemma StepGathered(plan: Plan, s: PlanStep, c: StepContract, ok: bool, keys: set<string>, exposed: set<string>)
    requires s.id == c.id && s.shape == c.shape
    requires ok <==> forall k :: 0 <= k < |s.targets| ==>
               KindAllowed(c, s.targets[k]) && (c.requiresRecovery ==> RecoveryCovers(plan.recoveryAssets, s.targets[k]))
    requires ok ==> forall k :: k in keys <==>
               exists j, m :: 0 <= j < |s.targets| && m in c.requiredPermissions &&
                              TupleKey(RequiredTuple(s, s.targets[j], m)) == k
    requires ok ==> forall k :: k in exposed <==>
               c.exposure.Some? && exists j :: 0 <= j < |s.targets| && ResourceKey(s.targets[j]) == k
    ensures ok <==> StepMatches(plan, s, c)
    ensures ok ==> StepKeys(s, c, keys)
    ensures ok ==> forall k :: k in exposed <==> c.exposure.Some? && exists t :: t in s.targets && ResourceKey(t) == k
  {
    hide TupleKey, ResourceKey, RecoveryCovers, KindAllowed;
    if ok {
      forall k ensures k in keys <==> exists x :: Needs(s, c, x) && TupleKey(x) == k {
        if k in keys {
          var j, m :| 0 <= j < |s.targets| && m in c.requiredPermissions && TupleKey(RequiredTuple(s, s.targets[j], m)) == k;
          assert Needs(s, c, RequiredTuple(s, s.targets[j], m));
        }
        if x :| Needs(s, c, x) && TupleKey(x) == k {
          var j :| 0 <= j < |s.targets| && s.targets[j] == x.resource;
          assert x == RequiredTuple(s, s.targets[j], x.permission);
        }
      }
      forall k ensures k in exposed <==> c.exposure.Some? && exists t :: t in s.targets && ResourceKey(t) == k {
        if c.exposure.Some? {
          if t :| t in s.targets && ResourceKey(t) == k {
            var j :| 0 <= j < |s.targets| && s.targets[j] == t;
          }
        }
      }
    }
  }

  lemma CollectOneMore(plan: Plan, contract: ExecutionContract, i: nat, keys: set<string>, more: set<string>)
    requires i < |plan.steps| && Collected(plan, contract, i, keys)
    requires StepKeys(plan.steps[i], contract.steps[i], more)
    ensures Collected(plan, contract, i + 1, keys + more)
  {
    hide Needs, TupleKey;
    forall k ensures k in keys + more <==>
        exists j, x :: 0 <= j < i + 1 && Needs(plan.steps[j], contract.steps[j], x) && TupleKey(x) == k {
      if k in keys {
        var j, x :| 0 <= j < i && Needs(plan.steps[j], contract.steps[j], x) && TupleKey(x) == k;
      } else if k in more {
        var x :| Needs(plan.steps[i], contract.steps[i], x) && TupleKey(x) == k;
      }
    }
  }

  lemma ExposeOneMore(plan: Plan, contract: ExecutionContract, i: nat, keys: set<string>, more: set<string>)
    requires i < |plan.steps| && CollectedExposed(plan, contract, i, keys)
    requires forall k :: k in more <==>
               contract.steps[i].exposure.Some? && exists t :: t in plan.steps[i].targets && ResourceKey(t) == k
    ensures CollectedExposed(plan, contract, i + 1, keys + more)
  {
    hide ResourceKey;
    forall k ensures k in keys + more <==> exists j, t ::
        0 <= j < i + 1 && contract.steps[j].exposure.Some? && t in plan.steps[j].targets && ResourceKey(t) == k {
      if k in keys {
        var j, t :| 0 <= j < i && contract.steps[j].exposure.Some? && t in plan.steps[j].targets && ResourceKey(t) == k;
      } else if k in more {
        var t :| t in plan.steps[i].targets && ResourceKey(t) == k;
      }
    }
  }

  lemma CollectStart(plan: Plan, contract: ExecutionContract)
    requires |plan.steps| == |contract.steps|
    ensures Collected(plan, contract, 0, {}) && CollectedExposed(plan, contract, 0, {})
  {
  }

  /** The loop over the paired steps. */
  method CheckSteps(plan: Plan, contract: ExecutionContract) returns (ok: bool, keys: set<string>, exposed: set<string>)
    requires |plan.steps| == |contract.steps|
    ensures ok <==> forall i :: 0 <= i < |plan.steps| ==> StepMatches(plan, plan.steps[i], contract.steps[i])
    ensures ok ==> Collected(plan, contract, |plan.steps|, keys)
    ensures ok ==> CollectedExposed(plan, contract, |plan.steps|, exposed)
  {
    hide StepMatches, Collected, CollectedExposed, StepKeys, ResourceKey;
    ok, keys, exposed := true, {}, {};
    CollectStart(plan, contract);
    for i := 0 to |plan.steps|
      invariant ok <==> forall k :: 0 <= k < i ==> StepMatches(plan, plan.steps[k], contract.steps[k])
      invariant ok ==> Collected(plan, contract, i, keys)
      invariant ok ==> CollectedExposed(plan, contract, i, exposed)
    {
      var stepOk, stepKeys, stepExposed := CheckStep(plan, plan.steps[i], contract.steps[i]);
      if ok && stepOk {
        CollectOneMore(plan, contract, i, keys, stepKeys);
        ExposeOneMore(plan, contract, i, exposed, stepExposed);
      }
      ok := ok && stepOk;
      keys := keys + stepKeys;
      exposed := exposed + stepExposed;
    }
  }

  datatype Risks = Risks(
    minimum: nat, mutation: bool, stepUp: bool, recovery: bool, exposure: Option<ExposureRequirement>)

  /** The risks are the worst of the listed steps, and the last exposure. */
  ghost predicate Folded(steps: seq<StepContract>, r: Risks) {
    && (forall c :: c in steps ==> c.minimumApproval <= r.minimum)
    && (r.minimum == READ || exists c :: c in steps && c.minimumApproval == r.minimum)
    && (r.mutation <==> exists c :: c in steps && c.mutation)
    && (r.stepUp <==> exists c :: c in steps && c.requiresStepUp)
    && (r.recovery <==> exists c :: c in steps && c.requiresRecovery)
    && r.exposure == LastExposure(steps)
  }

  lemma FoldOneMore(done: seq<StepContract>, r: Risks, c: StepContract)
    requires Folded(done, r)
    ensures Folded(done + [c], Risks(if c.minimumApproval > r.minimum then c.minimumApproval else r.minimum,
                                     r.mutation || c.mutation, r.stepUp || c.requiresStepUp,
                                     r.recovery || c.requiresRecovery, if c.exposure.Some? then c.exposure else r.exposure))
  {
    var next := done + [c];
    assert next[..|next| - 1] == done;
    assert forall d :: d in next <==> d in done || d == c;
    if r.minimum != READ {
      var d :| d in done && d.minimumApproval == r.minimum;
      assert d in next;
    }
    if r.mutation {
      var d :| d in done && d.mutation;
      assert d in next;
    }
    if r.stepUp {
      var d :| d in done && d.requiresStepUp;
      assert d in next;
    }
    if r.recovery {
      var d :| d in done && d.requiresRecovery;
      assert d in next;
    }
    assert c in next;
  }

  /** The loop that folds the contract's risk flags. */
  method FoldRisks(contract: ExecutionContract) returns (r: Risks)
    ensures Folded(contract.steps, r)
  {
    hide Folded;
    r := Risks(READ, false, false, false, None);
    FoldStart(r);
    for i := 0 to |contract.steps|
      invariant Folded(contract.steps[..i], r)
    {
      var c := contract.steps[i];
      FoldOneMore(contract.steps[..i], r, c);
      assert contract.steps[..i + 1] == contract.steps[..i] + [c];
      if c.minimumApproval > r.minimum {
        r := r.(minimum := c.minimumApproval);
      }
      r := r.(mutation := r.mutation || c.mutation, stepUp := r.stepUp || c.requiresStepUp,
              recovery := r.recovery || c.requiresRecovery);
      if c.exposure.Some? {
        r := r.(exposure := c.exposure);
      }
    }
    assert contract.steps[..|contract.steps|] == contract.steps;
  }

  lemma FoldStart(r: Risks)
    requires r == Risks(READ, false, false, false, None)
    ensures Folded([], r)
  {
  }

  lemma RisksDecide(plan: Plan, contract: ExecutionContract, r: Risks)
    requires Folded(contract.steps, r)
    ensures plan.approvalClass >= r.minimum && !(r.mutation && plan.approvalClass == READ) <==> ApprovalMet(plan, contract)
    ensures !(r.recovery && plan.recoveryAssets == []) <==> RecoveryMet(plan, contract)
  {
  }

  // ----- Counting the permission set -----

  /** Required tuples of a valid, matching plan have separator-free parts. */
  lemma RequiredIsPlain(n: Names, plan: Plan, contract: ExecutionContract, x: Tuple)
    requires PlanValid(n, plan) && ContractSound(n, contract) && Required(plan, contract, x)
    ensures PlainTuple(x)
  {
    hide DistinctBy, StableKey, PermissionsValid;
    var i :| 0 <= i < |plan.steps| && i < |contract.steps| && Needs(plan.steps[i], contract.steps[i], x);
    assert plan.steps[i] in plan.steps && contract.steps[i] in contract.steps;
    assert x.resource in plan.resources;
  }

  lemma GrantedIsPlain(n: Names, plan: Plan, p: PlanPermission)
    requires PlanValid(n, plan) && p in plan.permissions
    ensures PlainTuple(TupleOf(p))
  {
    hide DistinctBy, StableKey, NoNul;
    assert PermissionValid(n, p, plan.steps, plan.resources);
    var s :| s in plan.steps && s.id == p.stepID && s.shape.identity == p.identity;
    assert StepValid(n, s, plan.resources);
    StepIDPlain(s.id);
    assert ResourceOk(n, plan.projectID, p.resource);
    ValidResourceIsPlain(n, plan.projectID, p.resource);
  }

  lemma StepIDPlain(id: string)
    requires IsStepID(id)
    ensures NoNul(id)
  {
  }

  ghost function PermissionKeys(s: seq<PlanPermission>): set<string> { set p | p in s :: PermissionKey(p) }

  lemma {:induction false} PermissionKeysCounted(s: seq<PlanPermission>)
    requires DistinctBy(PermissionKey, s)
    ensures |PermissionKeys(s)| == |s|
  {
    hide PermissionKey;
    if s != [] {
      var last := |s| - 1;
      PermissionKeysCounted(s[..last]);
      assert s == s[..last] + [s[last]];
      assert PermissionKey(s[last]) !in PermissionKeys(s[..last]);
      assert PermissionKeys(s) == PermissionKeys(s[..last]) + {PermissionKey(s[last])};
    }
  }

  /** As many distinct permission keys as required keys, each of them required, is set equality of tuples. */
  lemma CountDecidesSet(n: Names, plan: Plan, contract: ExecutionContract, keys: set<string>)
    requires PlanValid(n, plan) && ContractSound(n, contract) && |plan.steps| == |contract.steps|
    requires Collected(plan, contract, |plan.steps|, keys)
    ensures |plan.permissions| == |keys| && PermissionKeys(plan.permissions) <= keys <==> PermissionsExact(plan, contract)
  {
    hide TupleKey, PlainTuple, ResourcesValid, StepsValid, PermissionValid, Needs, ContractSound, NoNul;
    PermissionKeysCounted(plan.permissions);
    if |plan.permissions| == |keys| && PermissionKeys(plan.permissions) <= keys {
      SubsetOfSameSize(PermissionKeys(plan.permissions), keys);
      forall x ensures (exists p :: p in plan.permissions && TupleOf(p) == x) <==> Required(plan, contract, x) {
        SameKeysSameTuple(n, plan, contract, keys, x);
      }
    }
    if PermissionsExact(plan, contract) {
      SameTuplesSameKeys(plan, contract, keys);
    }
  }

  lemma SameKeysSameTuple(n: Names, plan: Plan, contract: ExecutionContract, keys: set<string>, x: Tuple)
    requires PlanValid(n, plan) && ContractSound(n, contract) && |plan.steps| == |contract.steps|
    requires Collected(plan, contract, |plan.steps|, keys) && PermissionKeys(plan.permissions) == keys
    ensures (exists p :: p in plan.permissions && TupleOf(p) == x) <==> Required(plan, contract, x)
  {
    hide TupleKey, PlainTuple, PlanValid, Needs, ContractSound, NoNul;
    if p :| p in plan.permissions && TupleOf(p) == x {
      assert PermissionKey(p) in keys;
      var j, y :| 0 <= j < |plan.steps| && Needs(plan.steps[j], contract.steps[j], y) && TupleKey(y) == PermissionKey(p);
      RequiredIsPlain(n, plan, contract, y);
      GrantedIsPlain(n, plan, p);
      TupleKeyInjective(x, y);
    }
    if Required(plan, contract, x) {
      var i :| 0 <= i < |plan.steps| && i < |contract.steps| && Needs(plan.steps[i], contract.steps[i], x);
      assert TupleKey(x) in keys;
      var p :| p in plan.permissions && PermissionKey(p) == TupleKey(x);
      RequiredIsPlain(n, plan, contract, x);
      GrantedIsPlain(n, plan, p);
      TupleKeyInjective(x, TupleOf(p));
    }
  }

  lemma SameTuplesSameKeys(plan: Plan, contract: ExecutionContract, keys: set<string>)
    requires |plan.steps| == |contract.steps| && Collected(plan, contract, |plan.steps|, keys)
    requires PermissionsExact(plan, contract)
    ensures PermissionKeys(plan.permissions) == keys
  {
    hide TupleKey, Needs;
    forall k ensures k in PermissionKeys(plan.permissions) <==> k in keys {
      if k in PermissionKeys(plan.permissions) {
        var p :| p in plan.permissions && PermissionKey(p) == k;
        assert Required(plan, contract, TupleOf(p));
      }
      if k in keys {
        var j, x :| 0 <= j < |plan.steps| && Needs(plan.steps[j], contract.steps[j], x) && TupleKey(x) == k;
        assert Required(plan, contract, x);
        var p :| p in plan.permissions && TupleOf(p) == x;
      }
    }
  }

  lemma ExposedCollected(plan: Plan, contract: ExecutionContract, keys: set<string>)
    requires |plan.steps| == |contract.steps| && CollectedExposed(plan, contract, |plan.steps|, keys)
    ensures keys == ExposedKeys(plan, contract)
  {
    hide ResourceKey;
    forall k ensures k in keys <==> k in ExposedKeys(plan, contract) {
      if k in keys {
        var j, t :| 0 <= j < |plan.steps| && contract.steps[j].exposure.Some? && t in plan.steps[j].targets && ResourceKey(t) == k;
      }
      if k in ExposedKeys(plan, contract) {
        var j, t :| 0 <= j < |plan.steps| && j < |contract.steps| && contract.steps[j].exposure.Some? &&
                    t in plan.steps[j].targets && ResourceKey(t) == k;
      }
    }
  }

  /** Adds no blocker exactly when the contract is met. */
  method ValidateExecutionContract(n: Names, plan: Plan, contract: ExecutionContract, blockers: seq<Blocker>)
    returns (more: seq<Blocker>, approval: bool, stepUp: bool, recovery: bool)
    requires PlanValid(n, plan) && ContractSound(n, contract)
    ensures blockers <= more
    ensures more == blockers <==> ContractMet(n, plan, contract)
    ensures ContractMet(n, plan, contract) ==>
              && (approval <==> exists c :: c in contract.steps && (c.mutation || c.minimumApproval != READ))
              && (stepUp <==> exists c :: c in contract.steps && c.requiresStepUp)
              && (recovery <==> exists c :: c in contract.steps && c.requiresRecovery)
  {
    hide PlanValid, ContractSound, StepMatches, ApprovalMet, RecoveryMet, ExposureMatches, Required, Collected,
      CollectedExposed, LastExposure, ExposedKeys, Folded, PermissionsExact, PermissionKey;
    if !SameWorkflow(plan, contract) {
      return blockers + [Blocker(ContractBlocker, "workflow-or-step-set")], true, true, true;
    }
    var risks := FoldRisks(contract);
    RisksDecide(plan, contract, risks);
    RisksReported(contract, risks);
    more := blockers;
    var stepsOk, expected, exposed := CheckSteps(plan, contract);
    if stepsOk {
      ExposedCollected(plan, contract, exposed);
      CountDecidesSet(n, plan, contract, expected);
    }
    if !ExposureMatches(n, plan, risks.exposure, exposed) {
      more := more + [Blocker(ContractBlocker, "exposure-requirement")];
    }
    if !stepsOk || plan.approvalClass < risks.minimum || (risks.mutation && plan.approvalClass == READ) {
      more := more + [Blocker(ContractBlocker, "step-or-risk-mismatch")];
    }
    if risks.recovery && |plan.recoveryAssets| == 0 {
      more := more + [Blocker(RecoveryBlocker, "workflow-requirement")];
    }
    ghost var before := more;
    if |plan.permissions| != |expected| {
      more := more + [Blocker(PermissionBlocker, "workflow-required-set")];
    } else {
      for i := 0 to |plan.permissions|
        invariant more == before
        invariant forall k :: 0 <= k < i ==> PermissionKey(plan.permissions[k]) in expected
      {
        assert plan.permissions[i] in plan.permissions;
        if PermissionKey(plan.permissions[i]) !in expected {
          more := more + [Blocker(PermissionBlocker, "workflow-required-set")];
          break;
        }
      }
    }
    assert more == before <==> |plan.permissions| == |expected| && PermissionKeys(plan.permissions) <= expected by {
      PermissionKeysWithin(plan.permissions, expected);
    }
    return more, risks.minimum != READ || risks.mutation, risks.stepUp, risks.recovery;
  }

  lemma PermissionKeysWithin(permissions: seq<PlanPermission>, expected: set<string>)
    ensures PermissionKeys(permissions) <= expected <==>
            forall k :: 0 <= k < |permissions| ==> PermissionKey(permissions[k]) in expected
  {
    hide PermissionKey;
    if PermissionKeys(permissions) <= expected {
      forall k | 0 <= k < |permissions| ensures PermissionKey(permissions[k]) in expected {
        assert permissions[k] in permissions;
      }
    }
    if forall k :: 0 <= k < |permissions| ==> PermissionKey(permissions[k]) in expected {
      forall x | x in PermissionKeys(permissions) ensures x in expected {
        var p :| p in permissions && PermissionKey(p) == x;
        var k :| 0 <= k < |permissions| && permissions[k] == p;
      }
    }
  }

  lemma RisksReported(contract: ExecutionContract, r: Risks)
    requires Folded(contract.steps, r)
    ensures (r.minimum != READ || r.mutation) <==> exists c :: c in contract.steps && (c.mutation || c.minimumApproval != READ)
    ensures r.stepUp <==> exists c :: c in contract.steps && c.requiresStepUp
    ensures r.recovery <==> exists c :: c in contract.steps && c.requiresRecovery
    ensures r.exposure == LastExposure(contract.steps)
  {
    hide LastExposure;
  }

  // ----- Evidence -----

  /** The evidence is the expected list in another order. */
  ghost predicate Matches<T>(evidence: seq<T>, expected: seq<T>) {
    multiset(evidence) == multiset(expected)
  }

  /** A last-wins table over the evidence. */
  ghost predicate Latest<T(!new)>(key: T -> string, s: seq<T>, i: nat, table: map<string, T>) {
    && i <= |s|
    && (forall k :: k in table ==> exists j :: 0 <= j < i && key(s[j]) == k && table[k] == s[j])
    && (forall j :: 0 <= j < i ==> key(s[j]) in table)
  }

  /** Enough evidence, none of it repeated, and every expected item found: then
      it is exactly the expected list, reordered; and conversely. */
  lemma TableDecides<T(!new)>(key: T -> string, evidence: seq<T>, expected: seq<T>, table: map<string, T>)
    requires DistinctBy(key, expected) && Latest(key, evidence, |evidence|, table)
    ensures DistinctBy(key, evidence) && |evidence| == |expected| &&
            (forall x :: x in expected ==> key(x) in table && table[key(x)] == x) <==>
            Matches(evidence, expected)
  {
    DistinctByIsDistinct(key, expected);
    if Matches(evidence, expected) {
      ReorderKeepsElements(evidence, expected);
      DistinctByReordered(key, expected, evidence);
      DistinctByIsDistinct(key, evidence);
      forall x | x in expected ensures key(x) in table && table[key(x)] == x {
        assert x in evidence;
        var j :| 0 <= j < |evidence| && evidence[j] == x;
        assert key(evidence[j]) in table;
      }
    }
    if DistinctBy(key, evidence) && |evidence| == |expected| &&
       forall x :: x in expected ==> key(x) in table && table[key(x)] == x
    {
      DistinctByIsDistinct(key, evidence);
      forall x | x in expected ensures x in evidence {
        assert key(x) in table && table[key(x)] == x;
      }
      DistinctCount(evidence);
      DistinctCount(expected);
      SubsetOfSameSize(Elements(expected), Elements(evidence));
      forall x ensures x in evidence <==> x in expected {
        assert x in Elements(evidence) <==> x in Elements(expected);
      }
      SameElementsReorder(evidence, expected);
    }
  }

  lemma LatestStart<T(!new)>(key: T -> string, s: seq<T>)
    ensures Latest(key, s, 0, map[])
  {
  }

  lemma LatestOneMore<T(!new)>(key: T -> string, s: seq<T>, i: nat, table: map<string, T>)
    requires i < |s| && Latest(key, s, i, table)
    ensures Latest(key, s, i + 1, table[key(s[i]) := s[i]])
    ensures DistinctBy(key, s[..i]) ==> (DistinctBy(key, s[..i + 1]) <==> key(s[i]) !in table)
  {
    var more := table[key(s[i]) := s[i]];
    forall k | k in more ensures exists j :: 0 <= j < i + 1 && key(s[j]) == k && more[k] == s[j] {
      if k == key(s[i]) {
        assert more[k] == s[i];
      } else {
        var j :| 0 <= j < i && key(s[j]) == k && table[k] == s[j];
      }
    }
    if key(s[i]) in table {
      var j :| 0 <= j < i && key(s[j]) == key(s[i]);
      assert s[..i + 1][j] == s[j] && s[..i + 1][i] == s[i];
    } else {
      var shorter, longer := s[..i], s[..i + 1];
      if DistinctBy(key, shorter) {
        forall a, b | 0 <= a < b < |longer| ensures key(longer[a]) != key(longer[b]) {
          if b < i {
            assert shorter[a] == longer[a] && shorter[b] == longer[b];
          }
        }
      }
    }
  }

  lemma PrefixDistinct<T(!new)>(key: T -> string, s: seq<T>, i: nat)
    requires i <= |s| && DistinctBy(key, s)
    ensures DistinctBy(key, s[..i])
  {
  }

  /** The table loop over permission evidence; each repeat is a blocker. */
  method TabulatePermissions(s: seq<PlanPermission>, blockers: seq<Blocker>)
    returns (table: map<string, PlanPermission>, more: seq<Blocker>)
    ensures Latest(PermissionKey, s, |s|, table) && blockers <= more
    ensures more == blockers <==> DistinctBy(PermissionKey, s)
  {
    hide Latest, DistinctBy, PermissionKey;
    table, more := map[], blockers;
    LatestStart(PermissionKey, s);
    PrefixesDistinct(PermissionKey, s);
    for i := 0 to |s|
      invariant Latest(PermissionKey, s, i, table) && blockers <= more
      invariant more == blockers <==> DistinctBy(PermissionKey, s[..i])
    {
      LatestOneMore(PermissionKey, s, i, table);
      if PermissionKey(s[i]) in table {
        more := more + [Blocker(PermissionBlocker, "duplicate-evidence")];
      }
      table := table[PermissionKey(s[i]) := s[i]];
    }
    assert s[..|s|] == s;
  }

  /** Prefixes of a list without repeated keys have none either. */
  lemma PrefixesDistinct<T(!new)>(key: T -> string, s: seq<T>)
    ensures DistinctBy(key, s[..0])
    ensures forall i {:trigger s[..i]} :: 0 <= i < |s| && DistinctBy(key, s[..i + 1]) ==> DistinctBy(key, s[..i])
  {
    forall i {:trigger s[..i]} | 0 <= i < |s| && DistinctBy(key, s[..i + 1]) ensures DistinctBy(key, s[..i]) {
      PrefixDistinct(key, s[..i + 1], i);
      assert s[..i + 1][..i] == s[..i];
    }
  }

  method TabulateResources(s: seq<PlanResource>, blockers: seq<Blocker>)
    returns (table: map<string, PlanResource>, more: seq<Blocker>)
    ensures Latest(StableKey, s, |s|, table) && blockers <= more
    ensures more == blockers <==> DistinctBy(StableKey, s)
  {
    hide Latest, DistinctBy, StableKey;
    table, more := map[], blockers;
    LatestStart(StableKey, s);
    PrefixesDistinct(StableKey, s);
    for i := 0 to |s|
      invariant Latest(StableKey, s, i, table) && blockers <= more
      invariant more == blockers <==> DistinctBy(StableKey, s[..i])
    {
      LatestOneMore(StableKey, s, i, table);
      if StableKey(s[i]) in table {
        more := more + [Blocker(ResourceBlocker, "duplicate-evidence")];
      }
      table := table[StableKey(s[i]) := s[i]];
    }
    assert s[..|s|] == s;
  }

  /** Adds no blocker exactly when the evidence is the plan's permissions, all granted, in any order. */
  method ValidatePermissionEvidence(plan: Plan, evidence: Evidence, blockers: seq<Blocker>) returns (more: seq<Blocker>)
    requires DistinctBy(PermissionKey, plan.permissions)
    ensures blockers <= more
    ensures more == blockers <==>
            Matches(evidence.permissions, plan.permissions) && forall p :: p in plan.permissions ==> p.granted
  {
    hide Latest, DistinctBy, PermissionKey, Matches;
    var observed;
    observed, more := TabulatePermissions(evidence.permissions, blockers);
    TableDecides(PermissionKey, evidence.permissions, plan.permissions, observed);
    if |evidence.permissions| != |plan.permissions| {
      more := more + [Blocker(PermissionBlocker, "incomplete-evidence")];
    }
    ghost var before := more;
    for i := 0 to |plan.permissions|
      invariant before <= more
      invariant more == before <==> forall k :: 0 <= k < i ==> Confirmed(observed, plan.permissions[k])
    {
      var p := plan.permissions[i];
      if !p.granted || PermissionKey(p) !in observed || !observed[PermissionKey(p)].granted || observed[PermissionKey(p)] != p {
        more := more + [Blocker(PermissionBlocker, p.permission)];
      }
    }
    AllConfirmed(observed, plan.permissions);
  }

  predicate Confirmed(observed: map<string, PlanPermission>, p: PlanPermission) {
    p.granted && PermissionKey(p) in observed && observed[PermissionKey(p)] == p
  }

  lemma AllConfirmed(observed: map<string, PlanPermission>, permissions: seq<PlanPermission>)
    ensures (forall k :: 0 <= k < |permissions| ==> Confirmed(observed, permissions[k])) <==>
            (forall x :: x in permissions ==> PermissionKey(x) in observed && observed[PermissionKey(x)] == x) &&
            (forall p :: p in permissions ==> p.granted)
  {
    hide PermissionKey;
    if forall x :: x in permissions ==> PermissionKey(x) in observed && observed[PermissionKey(x)] == x && x.granted {
      forall k | 0 <= k < |permissions| ensures Confirmed(observed, permissions[k]) {
        assert permissions[k] in permissions;
      }
    }
  }

  /** Adds no blocker exactly when the rediscovered resources, fingerprints included, are the plan's. */
  method ValidateResourceEvidence(plan: Plan, evidence: Evidence, blockers: seq<Blocker>) returns (more: seq<Blocker>)
    requires DistinctBy(StableKey, plan.resources)
    ensures blockers <= more
    ensures more == blockers <==> Matches(evidence.resources, plan.resources)
  {
    hide Latest, DistinctBy, StableKey, Matches;
    var observed;
    observed, more := TabulateResources(evidence.resources, blockers);
    TableDecides(StableKey, evidence.resources, plan.resources, observed);
    if |evidence.resources| != |plan.resources| {
      more := more + [Blocker(ResourceBlocker, "incomplete-evidence")];
    }
    ghost var before := more;
    for i := 0 to |plan.resources|
      invariant before <= more
      invariant more == before <==>
                forall k :: 0 <= k < i ==>
                  StableKey(plan.resources[k]) in observed && observed[StableKey(plan.resources[k])] == plan.resources[k]
    {
      var r := plan.resources[i];
      if StableKey(r) !in observed || observed[StableKey(r)] != r {
        more := more + [Blocker(ResourceBlocker, r.kind + "/" + r.name)];
      }
    }
    assert (forall k :: 0 <= k < |plan.resources| ==>
              StableKey(plan.resources[k]) in observed && observed[StableKey(plan.resources[k])] == plan.resources[k]) <==>
           forall x :: x in plan.resources ==> StableKey(x) in observed && observed[StableKey(x)] == x by {
      ByIndexOrElement(plan.resources, observed);
    }
  }

  lemma ByIndexOrElement(s: seq<PlanResource>, observed: map<string, PlanResource>)
    ensures (forall k :: 0 <= k < |s| ==> StableKey(s[k]) in observed && observed[StableKey(s[k])] == s[k]) <==>
            forall x :: x in s ==> StableKey(x) in observed && observed[StableKey(x)] == x
  {
    hide StableKey;
    if forall x :: x in s ==> StableKey(x) in observed && observed[StableKey(x)] == x {
      forall k | 0 <= k < |s| ensures StableKey(s[k]) in observed && observed[StableKey(s[k])] == s[k] {
        assert s[k] in s;
      }
    }
  }

  // ----- The gate -----

  datatype Verdict = InvalidPlan | Blocked(blockers: seq<Blocker>) | Admitted

  ghost predicate EvidenceMet(plan: Plan, evidence: Evidence) {
    && Matches(evidence.resources, plan.resources) && Matches(evidence.permissions, plan.permissions)
    && forall p :: p in plan.permissions ==> p.granted
  }

  /** Admits exactly a valid plan whose contract is met and whose evidence is
      complete. `elsewhere` are the blockers of the checks not modelled here. */
  method ValidatePlanForExecution(n: Names, plan: Plan, evidence: Evidence, contract: ExecutionContract, elsewhere: seq<Blocker>)
    returns (verdict: Verdict)
    requires ContractSound(n, contract)
    ensures verdict.Admitted? <==>
            PlanValid(n, plan) && elsewhere == [] && ContractMet(n, plan, contract) && EvidenceMet(plan, evidence)
    ensures verdict.InvalidPlan? <==> !PlanValid(n, plan)
  {
    hide ResourcesValid, StepValid, PermissionValid, ExposureValid, ContractMet, ContractSound, Matches;
    var resourcesOk := ValidateResources(n, plan.projectID, plan.resources);
    if !resourcesOk {
      return InvalidPlan;
    }
    var stepsOk := ValidateSteps(n, plan.projectID, plan.steps, plan.pointOfNoReturn, plan.resources);
    if !stepsOk {
      return InvalidPlan;
    }
    var permissionsOk := ValidatePermissions(n, plan.projectID, plan.permissions, plan.approvalClass, plan.steps, plan.resources);
    if !permissionsOk {
      return InvalidPlan;
    }
    var exposureOk := ValidateExposureControls(n, plan);
    if !exposureOk {
      return InvalidPlan;
    }
    assert DistinctBy(StableKey, plan.resources) by {
      StableKeysDistinct(n, plan);
    }
    var blockers := elsewhere;
    var afterContract, approval, stepUp, recovery := ValidateExecutionContract(n, plan, contract, blockers);
    var afterResources := ValidateResourceEvidence(plan, evidence, afterContract);
    var afterPermissions := ValidatePermissionEvidence(plan, evidence, afterResources);
    if |afterPermissions| != 0 {
      return Blocked(afterPermissions);
    }
    return Admitted;
  }

  lemma StableKeysDistinct(n: Names, plan: Plan)
    requires ResourcesValid(n, plan.projectID, plan.resources)
    ensures DistinctBy(StableKey, plan.resources)
  {
  }

  /** Some granted item of the list is the tuple. */
  ghost predicate Grants(s: seq<PlanPermission>, x: Tuple) {
    exists p :: p in s && p.granted && TupleOf(p) == x
  }

  /** For an admitted plan the granted evidence tuples, the plan's permissions and
      the product of contract steps, targets and required permissions are one set. */
  lemma AdmittedPinsPermissions(n: Names, plan: Plan, evidence: Evidence, contract: ExecutionContract)
    requires PlanValid(n, plan) && ContractMet(n, plan, contract) && EvidenceMet(plan, evidence)
    ensures forall x :: Grants(evidence.permissions, x) <==> Required(plan, contract, x)
    ensures forall x :: Grants(plan.permissions, x) <==> Required(plan, contract, x)
    ensures forall p :: p in evidence.permissions ==> p.granted
    ensures DistinctBy(TupleOf, evidence.permissions)
  {
    hide Required, ResourcesValid, StepsValid, StepMatches, ExposureMatches, TupleKey, ApprovalMet, RecoveryMet;
    ReorderKeepsElements(evidence.permissions, plan.permissions);
    DistinctByReordered(PermissionKey, plan.permissions, evidence.permissions);
    forall x ensures Grants(evidence.permissions, x) <==> Required(plan, contract, x)
      ensures Grants(plan.permissions, x) <==> Required(plan, contract, x) {
      if Required(plan, contract, x) {
        var p :| p in plan.permissions && TupleOf(p) == x;
        assert p in evidence.permissions && p.granted;
      }
      if Grants(evidence.permissions, x) {
        var p :| p in evidence.permissions && TupleOf(p) == x;
        assert p in plan.permissions;
      }
    }
    var s := evidence.permissions;
    forall i, j | 0 <= i < j < |s| ensures TupleOf(s[i]) != TupleOf(s[j]) {
      assert PermissionKey(s[i]) != PermissionKey(s[j]);
    }
  }

  /** No identity is granted anything on a resource unless some contract step run
      as that identity requires it there; a tuple outside the product blocks. */
  lemma StrayGrantBlocks(n: Names, plan: Plan, evidence: Evidence, contract: ExecutionContract, p: PlanPermission)
    requires PlanValid(n, plan) && p in evidence.permissions && !Required(plan, contract, TupleOf(p))
    ensures !(ContractMet(n, plan, contract) && EvidenceMet(plan, evidence))
  {
    hide Required, ResourcesValid, StepsValid, PermissionsValid;
    if ContractMet(n, plan, contract) && EvidenceMet(plan, evidence) {
      AdmittedPinsPermissions(n, plan, evidence, contract);
    }
  }

  // ----- Exposure targets -----

  function Nuls(s: string): nat {
    if s == [] then 0 else Nuls(s[..|s| - 1]) + (if s[|s| - 1] == '\0' then 1 else 0)
  }

  lemma {:induction false} NulsConcat(a: string, b: string)
    ensures Nuls(a + b) == Nuls(a) + Nuls(b)
  {
    if b == [] {
      assert a + b == a;
    } else {
      assert (a + b)[..|a + b| - 1] == a + b[..|b| - 1];
      NulsConcat(a, b[..|b| - 1]);
    }
  }

  lemma {:induction false} NulsCount(s: string)
    ensures Nuls(s) == 0 <==> NoNul(s)
  {
    if s != [] {
      NulsCount(s[..|s| - 1]);
    }
  }

  /** A resource key has three separators of its own. */
  lemma KeyNuls(r: PlanResource)
    ensures Nuls(ResourceKey(r)) == 3 + Nuls(r.scope) + Nuls(r.kind) + Nuls(r.name) + Nuls(r.fingerprint)
  {
    hide Nuls;
    assert Nuls(NUL) == 1 by {
      SeparatorCounts();
    }
    NulsConcat(NUL, r.fingerprint);
    NulsConcat(r.name, NUL + r.fingerprint);
    NulsConcat(NUL, r.name + (NUL + r.fingerprint));
    NulsConcat(r.kind, NUL + (r.name + (NUL + r.fingerprint)));
    NulsConcat(NUL, r.kind + (NUL + (r.name + (NUL + r.fingerprint))));
    NulsConcat(r.scope, NUL + (r.kind + (NUL + (r.name + (NUL + r.fingerprint)))));
  }

  lemma SeparatorCounts()
    ensures Nuls(NUL) == 1
  {
    assert NUL[..0] == [];
  }

  /** Where no planned fingerprint holds a separator, a planned key stands for its resource alone. */
  lemma PlannedKeyIsPlain(r: PlanResource, t: PlanResource)
    requires PlainResource(r) && NoNul(r.fingerprint) && ResourceKey(t) == ResourceKey(r)
    ensures PlainResource(t)
  {
    hide ResourceKey, NoNul, Nuls;
    KeyNuls(r);
    KeyNuls(t);
    NulsCount(r.scope);
    NulsCount(r.kind);
    NulsCount(r.name);
    NulsCount(r.fingerprint);
    NulsCount(t.scope);
    NulsCount(t.kind);
    NulsCount(t.name);
  }

  lemma ExposedIsPlanned(n: Names, plan: Plan, contract: ExecutionContract, r: PlanResource)
    requires PlanValid(n, plan) && Exposed(plan, contract, r)
    ensures r in plan.resources && PlainResource(r)
  {
    hide ExposureValid, PermissionsValid, DistinctBy, NoNul;
    var i :| 0 <= i < |plan.steps| && i < |contract.steps| && contract.steps[i].exposure.Some? && r in plan.steps[i].targets;
    assert StepValid(n, plan.steps[i], plan.resources);
    ValidResourceIsPlain(n, plan.projectID, r);
  }

  /** For a valid plan that meets its contract, comparing size and membership of
      keys decides equality: the exposure targets carry exactly the keys of the
      exposed steps' targets. They are those targets exactly when each is free of
      separators before its fingerprint, and so whenever no planned fingerprint
      holds one. */
  lemma ExposureTargetsExact(n: Names, plan: Plan, contract: ExecutionContract)
    requires PlanValid(n, plan) && ContractMet(n, plan, contract) && plan.controls.Some?
    ensures var targets := plan.controls.value.targets;
            && KeysOf(targets) == ExposedKeys(plan, contract) && DistinctBy(ResourceKey, targets)
            && ((forall r :: r in targets <==> Exposed(plan, contract, r)) <==> forall t :: t in targets ==> PlainResource(t))
            && ((forall r :: r in plan.resources ==> NoNul(r.fingerprint)) ==>
                  forall r :: r in targets <==> Exposed(plan, contract, r))
  {
    hide ResourceKey, ResourcesValid, StepsValid, PermissionsValid, PermissionsExact, ApprovalMet, RecoveryMet,
      StepMatches, LastExposure, Exposed, PlainResource, NoNul, ExposedKeys;
    var targets := plan.controls.value.targets;
    KeysCounted(targets);
    SubsetOfSameSize(KeysOf(targets), ExposedKeys(plan, contract));
    if forall r :: r in plan.resources ==> NoNul(r.fingerprint) {
      PlannedTargetsPlain(n, plan, targets);
    }
    if forall t :: t in targets ==> PlainResource(t) {
      forall r ensures r in targets <==> Exposed(plan, contract, r) {
        PlainTargetExposed(n, plan, contract, targets, r);
      }
    }
    if forall r :: r in targets <==> Exposed(plan, contract, r) {
      forall t | t in targets ensures PlainResource(t) {
        ExposedIsPlanned(n, plan, contract, t);
      }
    }
  }

  lemma PlannedTargetsPlain(n: Names, plan: Plan, targets: seq<PlanResource>)
    requires ResourcesValid(n, plan.projectID, plan.resources) && ExposureTargetsValid(targets, plan.resources)
    requires forall r :: r in plan.resources ==> NoNul(r.fingerprint)
    ensures forall t :: t in targets ==> PlainResource(t)
  {
    hide ResourceKey, ResourcesValid, PlainResource, NoNul;
    AllPlain(n, plan.projectID, plan.resources);
    forall t | t in targets ensures PlainResource(t) {
      var r :| r in plan.resources && ResourceKey(r) == ResourceKey(t);
      PlannedKeyIsPlain(r, t);
    }
  }

  lemma PlainTargetExposed(n: Names, plan: Plan, contract: ExecutionContract, targets: seq<PlanResource>, r: PlanResource)
    requires PlanValid(n, plan) && |plan.steps| == |contract.steps| && KeysOf(targets) == ExposedKeys(plan, contract)
    requires forall t :: t in targets ==> PlainResource(t)
    ensures r in targets <==> Exposed(plan, contract, r)
  {
    hide ResourceKey, PlanValid, PlainResource;
    if r in targets {
      assert ResourceKey(r) in ExposedKeys(plan, contract);
      var i, t :| 0 <= i < |plan.steps| && i < |contract.steps| && contract.steps[i].exposure.Some? &&
        t in plan.steps[i].targets && ResourceKey(t) == ResourceKey(r);
      assert Exposed(plan, contract, t);
      ExposedIsPlanned(n, plan, contract, t);
      ResourceKeyInjective(t, r);
    }
    if Exposed(plan, contract, r) {
      ExposedIsPlanned(n, plan, contract, r);
      assert ResourceKey(r) in KeysOf(targets);
      var t :| t in targets && ResourceKey(t) == ResourceKey(r);
      ResourceKeyInjective(t, r);
    }
  }
}
