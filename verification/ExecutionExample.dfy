/** Plans the execution gate admits: one mutating step, one target, one permission. */
module ExecutionExample {
  import opened Common
  import opened Text
  import opened Collections
  import opened Contracts
  import opened ExecutionGate
  import opened ExecutionBlockers

  const ANY_NAMES := Names(s => true, (s, p) => true, s => true, (d, t) => true, plan => true)
  const SHAPE := StepShape("x", Human, "c", true, "never", true, 10, "done", "stop")

  function Target(fingerprint: string): PlanResource { PlanResource("s", "k", "n", fingerprint) }

  function Grant(target: PlanResource): PlanPermission { PlanPermission("a", Human, "m", target, true) }

  function PlanOn(target: PlanResource, exposure: string, controls: Option<ExposureControls>): Plan {
    Plan("w", "p", SECURITY_SENSITIVE, [target], [PlanStep("a", SHAPE, [target])], [Grant(target)], "b", "", None, [],
         exposure, controls)
  }

  function ContractWith(exposure: Option<ExposureRequirement>): ExecutionContract {
    var step := StepContract("a", SHAPE, true, SECURITY_SENSITIVE, ["k"], ["m"], false, false, exposure);
    ExecutionContract("w", "b", "", None, [step], "")
  }

  function EvidenceOf(plan: Plan): Evidence { Evidence(plan.resources, plan.permissions) }

  lemma StructureValid(target: PlanResource, plan: Plan)
    requires target == Target(target.fingerprint) && target.fingerprint != ""
    requires plan == PlanOn(target, plan.exposure, plan.controls) && ExposureValid(ANY_NAMES, plan)
    ensures PlanValid(ANY_NAMES, plan)
  {
    hide ResourceKey, StableKey, TupleKey, ExposureValid;
    assert IsStepID("k") && IsStepID("n") && IsStepID("a");
    assert StepValid(ANY_NAMES, plan.steps[0], plan.resources);
    assert target in plan.steps[0].targets && plan.steps[0] in plan.steps;
    assert plan.steps[0].id == Grant(target).stepID && plan.steps[0].shape.identity == Grant(target).identity;
    assert PermissionValid(ANY_NAMES, Grant(target), plan.steps, plan.resources);
    assert Grant(target) in plan.permissions && Grant(target).resource == target;
  }

  lemma ContractIsMet(target: PlanResource, plan: Plan, exposure: Option<ExposureRequirement>, contract: ExecutionContract)
    requires target == Target(target.fingerprint)
    requires plan == PlanOn(target, plan.exposure, plan.controls) && contract == ContractWith(exposure)
    requires ExposureMatches(ANY_NAMES, plan, LastExposure(contract.steps), ExposedKeys(plan, contract))
    ensures ContractMet(ANY_NAMES, plan, contract)
  {
    hide ResourceKey, ExposureMatches, ExposedKeys, LastExposure;
    assert "k" in contract.steps[0].targetKinds && "m" in contract.steps[0].requiredPermissions;
    assert StepMatches(plan, plan.steps[0], contract.steps[0]);
    forall x ensures (exists p :: p in plan.permissions && TupleOf(p) == x) <==> Required(plan, contract, x) {
      if x == TupleOf(Grant(target)) {
        assert Grant(target) in plan.permissions;
        assert Needs(plan.steps[0], contract.steps[0], x);
      }
      if Required(plan, contract, x) {
        assert Needs(plan.steps[0], contract.steps[0], x);
      }
    }
  }

  /** The gate admits something: its theorems are about plans that exist. */
  lemma SomePlanIsAdmitted()
    ensures var plan, contract := PlanOn(Target("f"), NO_EXPOSURE, None), ContractWith(None);
            && PlanValid(ANY_NAMES, plan) && ContractSound(ANY_NAMES, contract)
            && ContractMet(ANY_NAMES, plan, contract) && EvidenceMet(plan, EvidenceOf(plan))
  {
    hide PlanValid, ContractMet;
    var plan, contract := PlanOn(Target("f"), NO_EXPOSURE, None), ContractWith(None);
    StructureValid(Target("f"), plan);
    assert LastExposure(contract.steps) == None by {
      assert contract.steps[..0] == [];
    }
    ContractIsMet(Target("f"), plan, None, contract);
  }

  // ----- An aliased exposure target -----

  const REQUIREMENT := ExposureRequirement("external", "ACC-03", false, "sim")

  /** A resource no plan can hold whose key is that of `Target("f" + NUL + "g")`. */
  const ALIAS := PlanResource("s" + (NUL + "k"), "n", "f", "g")

  const ALIASED_CONTROLS := ExposureControls("ACC-03", false, "sim", "tls", [ALIAS])

  lemma SameKey(target: PlanResource)
    requires target == Target("f" + (NUL + "g"))
    ensures ResourceKey(ALIAS) == ResourceKey(target)
    ensures ALIAS != target && !PlainResource(ALIAS)
  {
    assert ResourceKey(ALIAS) == "s\0k\0n\0f\0g" == ResourceKey(target);
    assert ALIAS.scope[1] == '\0';
  }

  lemma AliasCompares(target: PlanResource, plan: Plan, contract: ExecutionContract)
    requires target == Target("f" + (NUL + "g"))
    requires plan == PlanOn(target, "external", Some(ALIASED_CONTROLS)) && contract == ContractWith(Some(REQUIREMENT))
    ensures ExposureValid(ANY_NAMES, plan)
    ensures ExposureMatches(ANY_NAMES, plan, LastExposure(contract.steps), ExposedKeys(plan, contract))
  {
    hide ResourceKey;
    SameKey(target);
    assert target in plan.resources && target in plan.steps[0].targets;
    assert ExposedKeys(plan, contract) == {ResourceKey(target)};
  }

  /** With a separator inside a fingerprint the exposure of something else
      entirely is admitted: its key is compared, the resource is not. */
  lemma AliasedExposureAdmitted()
    ensures var plan, contract := PlanOn(Target("f" + (NUL + "g")), "external", Some(ALIASED_CONTROLS)),
                                  ContractWith(Some(REQUIREMENT));
            && PlanValid(ANY_NAMES, plan) && ContractSound(ANY_NAMES, contract)
            && ContractMet(ANY_NAMES, plan, contract) && EvidenceMet(plan, EvidenceOf(plan))
            && ALIAS in plan.controls.value.targets && ALIAS !in plan.resources && !Exposed(plan, contract, ALIAS)
  {
    hide PlanValid, ContractMet, ExposureValid, ExposureMatches, LastExposure, ExposedKeys, ResourceKey;
    var target := Target("f" + (NUL + "g"));
    var plan, contract := PlanOn(target, "external", Some(ALIASED_CONTROLS)), ContractWith(Some(REQUIREMENT));
    SameKey(target);
    AliasCompares(target, plan, contract);
    StructureValid(target, plan);
    ContractIsMet(target, plan, Some(REQUIREMENT), contract);
    assert target.fingerprint != "";
  }
}
