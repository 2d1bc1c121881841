/** The pre-mutation guard: one evaluation, its fingerprint, and authorisation followed by revalidation. */
module PreMutation {
  import opened Common
  import opened Text
  import opened Cidr
  import opened Collections
  import opened Evidence
  import opened Firewall
  import opened FirewallProof
  import opened Guard
  import opened Capacity

  /** Five minutes, in seconds. */
  const MAX_PROOF_LIFETIME: int := 300
  const SERVICE_ACCOUNT := "service-account"
  const RESOURCE_MANAGER := "cloudresourcemanager.googleapis.com"
  const PROJECTS := "projects"
  const INSERT_PERMISSIONS := ["compute.firewalls.create", "compute.networks.updatePolicy"]

  datatype Policy = Policy(
    projectID: string, limits: RunLimits, testCIDR: string, mutationWindow: int, operator: Principal,
    destructive: Principal, permissions: Pin<seq<PermissionObservation>>, environments: Pin<seq<EnvironmentIdentity>>,
    productionCIDRs: Pin<seq<string>>)

  datatype Freshness = Freshness(revision: string, observedAt: Time, validUntil: Time)

  datatype PreMutationInput = PreMutationInput(
    operation: OperationBinding, runID: string, targets: seq<Target>, capacity: CapacityInput, testCIDR: string,
    productionCIDRs: seq<string>, environments: seq<EnvironmentIdentity>, locks: seq<EnvironmentLock>,
    principal: Principal, intents: seq<Intent>, expected: seq<PermissionObservation>,
    observed: seq<PermissionObservation>, rules: seq<FirewallRule>, observations: seq<Observation>,
    lifetime: RunLifetime, freshness: Freshness)

  // ----- Component checks -----

  predicate FreshAt(f: Freshness, now: Time) {
    && IsDigest(f.revision)
    && f.observedAt.Canonical() && f.validUntil.Canonical() && now.Canonical()
    && 0 < f.validUntil.instant - f.observedAt.instant <= MAX_PROOF_LIFETIME
    && !now.Before(f.observedAt) && now.Before(f.validUntil)
  }

  function EnvironmentKey(e: EnvironmentIdentity): seq<string> { [e.environment, e.cls] }
  predicate EnvironmentLess(a: EnvironmentIdentity, b: EnvironmentIdentity) {
    TupleLess(EnvironmentKey(a), EnvironmentKey(b))
  }

  predicate EnvironmentsPinned(p: Patterns, values: seq<EnvironmentIdentity>, pin: Pin<seq<EnvironmentIdentity>>) {
    && values != [] && (forall e :: e in values ==> ExpectedOk(p, e)) && DistinctEnvironments(values)
    && SortBy(EnvironmentLess, values) == pin.fingerprint
  }

  predicate CIDRsPinned(g: Grammar, values: seq<string>, pin: Pin<seq<string>>) {
    values != [] && ProductionCIDRs(g, values) && SortBy(LexLess, values) == pin.fingerprint
  }

  predicate PrincipalsOk(g: Grammar, policy: Policy) {
    && policy.operator.kind == SERVICE_ACCOUNT && g.patterns.principal(policy.operator)
    && policy.destructive.kind == SERVICE_ACCOUNT && g.patterns.principal(policy.destructive)
    && policy.operator != policy.destructive
  }

  predicate PolicyAccepted(g: Grammar, policy: Policy, x: PreMutationInput) {
    && g.patterns.project(policy.projectID) && LimitsOk(policy.limits)
    && 0 < policy.mutationWindow <= policy.limits.maxLifetime
    && PrincipalsOk(g, policy) && x.principal == policy.operator && policy.testCIDR == x.testCIDR
    && PinNamed(g.patterns, policy.permissions) && PinNamed(g.patterns, policy.environments)
    && PinNamed(g.patterns, policy.productionCIDRs)
    && EnvironmentsPinned(g.patterns, x.environments, policy.environments)
    && CIDRsPinned(g, x.productionCIDRs, policy.productionCIDRs)
  }

  /** Every identity the evidence names belongs to the configured project. */
  predicate InProject(project: string, x: PreMutationInput) {
    && (forall t :: t in x.targets ==> t.identity.project == project)
    && (forall i :: i in x.capacity.instances ==> i.identity.project == project)
    && (forall d :: d in x.capacity.disks ==> d.identity.project == project)
    && (forall r :: r in x.rules ==> r.identity.project == project && r.network.project == project)
    && (forall o :: o in x.observations ==> o.identity.project == project)
    && (forall o :: o in x.observations && o.presentRule.Some? ==>
          o.presentRule.value.identity.project == project && o.presentRule.value.network.project == project)
    && (forall o :: o in x.expected ==> o.resource.project == project)
    && (forall o :: o in x.observed ==> o.resource.project == project)
  }

  function Parse(g: Grammar, cidrs: seq<string>): (r: seq<Parsed>)
    ensures |r| == |cidrs| && forall i :: 0 <= i < |r| ==> r[i] == g.parse(cidrs[i])
  {
    if cidrs == [] then [] else [g.parse(cidrs[0])] + Parse(g, cidrs[1..])
  }

  ghost predicate NetworkProved(g: Grammar, test: string, production: seq<string>) {
    var block := g.parse(test);
    && CanonicalFour(block) && block.prefix.bits <= MAX_SUBNET_BITS
    && (exists i :: 0 <= i < |PRIVATE| && PRIVATE[i].Sized() && Inside(block.prefix, PRIVATE[i]))
    && forall v :: v in production ==> Clear(block, g.parse(v))
  }

  function ProjectResource(project: string): Identity {
    var i := Identity(project, RESOURCE_MANAGER, PROJECTS, Global, "global", "", project, "");
    i.(canonicalKey := CanonicalTargetKey(i))
  }

  /** Inserting a firewall needs both permissions expected and observed on the project itself. */
  predicate Emittable(g: Grammar, project: string, expected: seq<PermissionObservation>,
                      observed: seq<PermissionObservation>, principal: Principal, intents: seq<Intent>)
  {
    intents != [] ==>
      && g.patterns.project(project)
      && forall permission :: permission in INSERT_PERMISSIONS ==>
           && PermissionObservation(principal, ProjectResource(project), permission, true) in expected
           && PermissionObservation(principal, ProjectResource(project), permission, true) in observed
  }

  function ContextOf(policy: Policy, x: PreMutationInput, now: Time): Context {
    Context(x.runID, x.capacity.plan, x.operation, x.capacity.lifetime, policy.limits, x.lifetime,
            policy.mutationWindow, x.freshness.observedAt, now)
  }

  // ----- What the evidence leaves to do -----

  function PairFor(g: Grammar, x: PreMutationInput): Pair {
    RequiredPair(x.lifetime.projectID, x.runID, g.lifetimeDigest(x.lifetime))
  }

  predicate SSHAbsent(g: Grammar, x: PreMutationInput) { Observed(PairFor(g, x).ssh, true) in x.observations }
  predicate MongoAbsent(g: Grammar, x: PreMutationInput) { Observed(PairFor(g, x).mongo, true) in x.observations }

  /** One insert per required rule that was confirmed absent. */
  function Due(g: Grammar, x: PreMutationInput): seq<Intent> {
    AbsentInserts(PairFor(g, x), SSHAbsent(g, x), MongoAbsent(g, x))
  }

  ghost predicate EvidenceProved(g: Grammar, policy: Policy, x: PreMutationInput) {
    && OperationOk(x.operation) && PolicyAccepted(g, policy, x) && Selectable(g, x.runID, x.targets)
    && InProject(policy.projectID, x)
    && CapacityProved(g, x.capacity, policy.limits, x.runID, x.targets)
    && NetworkProved(g, x.testCIDR, x.productionCIDRs)
    && ExactLockSet(g.patterns, x.locks, x.environments, x.runID, x.principal)
    && PermissionProof(g.patterns, g.forbiddenWrite, policy.permissions, x.expected, x.observed, x.principal)
  }

  ghost predicate IntentsProved(g: Grammar, policy: Policy, x: PreMutationInput) {
    multiset(x.intents) == multiset(Due(g, x)) &&
    Emittable(g, policy.projectID, x.expected, x.observed, x.principal, Due(g, x))
  }

  /** Everything the guard demands of the evidence at `now`. */
  ghost predicate Accepted(g: Grammar, policy: Policy, x: PreMutationInput, now: Time) {
    && FreshAt(x.freshness, now) && EvidenceProved(g, policy, x)
    && FirewallProved(g, x.rules, x.observations, x.productionCIDRs, x.targets, ContextOf(policy, x, now))
    && IntentsProved(g, policy, x)
  }

  // ----- The fingerprint -----

  function LockKey(l: EnvironmentLock): seq<string> { [l.environment, l.cls, l.runID] }
  predicate LockLess(a: EnvironmentLock, b: EnvironmentLock) { TupleLess(LockKey(a), LockKey(b)) }
  predicate RuleLess(a: FirewallRule, b: FirewallRule) { LexLess(a.purpose, b.purpose) }
  function ObservationKey(o: Observation): string { o.identity.canonicalKey }
  predicate ObservationLess(a: Observation, b: Observation) { LexLess(ObservationKey(a), ObservationKey(b)) }

  function NormalRules(s: seq<FirewallRule>): seq<FirewallRule> {
    if s == [] then [] else [Normalize(s[0])] + NormalRules(s[1..])
  }

  function NormalObservation(o: Observation): Observation {
    if o.presentRule.Some? then o.(presentRule := Some(Normalize(o.presentRule.value))) else o
  }

  function NormalObservations(s: seq<Observation>): seq<Observation> {
    if s == [] then [] else [NormalObservation(s[0])] + NormalObservations(s[1..])
  }

  function NormalIntents(s: seq<Intent>): seq<Intent> {
    if s == [] then [] else [NormalIntent(s[0])] + NormalIntents(s[1..])
  }

  /** What the decision digests; an ideal digest is its payload. */
  datatype Payload = Payload(
    policy: Policy, operation: OperationBinding, runID: string, targets: seq<Target>, plan: PlanIdentity,
    snapshot: Snapshot, instances: seq<PlannedInstance>, disks: seq<PlannedDisk>, plannedLifetime: int,
    costMicros: int, testCIDR: string, productionCIDRs: seq<string>, environments: seq<EnvironmentIdentity>,
    locks: seq<EnvironmentLock>, principal: Principal, intents: seq<Intent>, expected: seq<PermissionObservation>,
    observed: seq<PermissionObservation>, rules: seq<FirewallRule>, observations: seq<Observation>,
    lifetime: RunLifetime, revision: string)

  function Fingerprint(policy: Policy, x: PreMutationInput, targets: seq<Target>, intents: seq<Intent>): Payload {
    Payload(policy, x.operation, x.runID, targets, x.capacity.plan, x.capacity.snapshot,
            SortBy(InstanceLess, x.capacity.instances), SortBy(DiskLess, x.capacity.disks), x.capacity.lifetime,
            x.capacity.costMicros, x.testCIDR, SortBy(LexLess, x.productionCIDRs),
            SortBy(EnvironmentLess, x.environments), SortBy(LockLess, x.locks), x.principal,
            SortBy(IntentLess, NormalIntents(intents)), SortBy(PermissionLess, x.expected),
            SortBy(PermissionLess, x.observed), SortBy(RuleLess, NormalRules(x.rules)),
            SortBy(ObservationLess, NormalObservations(x.observations)), x.lifetime, x.freshness.revision)
  }

  function EvidenceFingerprint(g: Grammar, policy: Policy, x: PreMutationInput): Payload {
    Fingerprint(policy, x, SortBy(TargetLess, x.targets), Due(g, x))
  }

  // ----- Evaluation -----

  method CheckNetwork(g: Grammar, test: string, production: seq<string>) returns (ok: bool)
    ensures ok <==> NetworkProved(g, test, production)
  {
    hide Inside, Disjoint, Canonical;
    var parsed := Parse(g, production);
    assert (forall v :: v in production ==> Clear(g.parse(test), g.parse(v))) <==>
           forall i :: 0 <= i < |parsed| ==> Clear(g.parse(test), parsed[i]) by {
      hide Clear;
      if forall v :: v in production ==> Clear(g.parse(test), g.parse(v)) {
        ClearByIndex(g, g.parse(test), production, parsed);
      }
      if forall i :: 0 <= i < |parsed| ==> Clear(g.parse(test), parsed[i]) {
        ClearByElement(g, g.parse(test), production, parsed);
      }
    }
    ok := ValidateNetworkCIDR(g.parse(test), parsed);
    assert CanonicalFour(g.parse(test)) ==>
      forall i :: 0 <= i < |parsed| ==>
        (Clear(g.parse(test), parsed[i]) <==>
         CanonicalFour(parsed[i]) && Disjoint(g.parse(test).prefix, parsed[i].prefix));
  }

  /** The forbidden prefix is canonical and shares no address with the tested one. */
  ghost predicate Clear(test: Parsed, v: Parsed) {
    CanonicalFour(test) && CanonicalFour(v) && Disjoint(test.prefix, v.prefix)
  }

  lemma ClearByIndex(g: Grammar, test: Parsed, production: seq<string>, parsed: seq<Parsed>)
    requires |parsed| == |production| && forall i :: 0 <= i < |parsed| ==> parsed[i] == g.parse(production[i])
    requires forall v :: v in production ==> Clear(test, g.parse(v))
    ensures forall i :: 0 <= i < |parsed| ==> Clear(test, parsed[i])
  {
    hide Clear;
    forall i | 0 <= i < |parsed| ensures Clear(test, parsed[i]) {
      assert production[i] in production;
    }
  }

  lemma ClearByElement(g: Grammar, test: Parsed, production: seq<string>, parsed: seq<Parsed>)
    requires |parsed| == |production| && forall i :: 0 <= i < |parsed| ==> parsed[i] == g.parse(production[i])
    requires forall i :: 0 <= i < |parsed| ==> Clear(test, parsed[i])
    ensures forall v :: v in production ==> Clear(test, g.parse(v))
  {
    hide Clear;
    forall v | v in production ensures Clear(test, g.parse(v)) {
      var i :| 0 <= i < |production| && production[i] == v;
      assert Clear(test, parsed[i]);
    }
  }

  /** Every local proof in order; the intents and the digest exist exactly when all hold. */
  method EvaluatePreMutation(g: Grammar, policy: Policy, x: PreMutationInput, now: Time)
    returns (intents: Option<seq<Intent>>, fingerprint: Option<Payload>)
    ensures intents.Some? <==> Accepted(g, policy, x, now)
    ensures fingerprint.Some? <==> intents.Some?
    ensures intents.Some? ==> intents.value == Due(g, x) && fingerprint.value == EvidenceFingerprint(g, policy, x)
  {
    hide OperationOk, FreshAt, PolicyAccepted, Selectable, InProject, CapacityProved, NetworkProved, ExactLockSet,
      PermissionProof, FirewallProved, Emittable, Due, Fingerprint, SortBy, ContextOf;
    intents, fingerprint := None, None;
    if !OperationOk(x.operation) || !FreshAt(x.freshness, now) || !PolicyAccepted(g, policy, x) {
      return;
    }
    var targets := SelectTargets(g, x.runID, x.targets);
    if targets.None? {
      return;
    }
    if !InProject(policy.projectID, x) {
      return;
    }
    var capacityOk := ValidateCapacityProof(g, x.capacity, policy.limits, x.runID, targets.value);
    SelectionKeeps(g, policy, x, now);
    if !capacityOk {
      return;
    }
    var networkOk := CheckNetwork(g, x.testCIDR, x.productionCIDRs);
    if !networkOk {
      return;
    }
    var locksOk := ValidateHarnessLocks(g.patterns, x.locks, x.environments, x.runID, x.principal);
    if !locksOk {
      return;
    }
    var permissionsOk := ValidatePermissionProof(g.patterns, g.forbiddenWrite, policy.permissions, x.expected, x.observed,
                                                 x.principal);
    if !permissionsOk {
      return;
    }
    var context := ContextOf(policy, x, now);
    var firewallOk := ValidateFirewallRules(g, x.rules, x.observations, x.productionCIDRs, targets.value, context);
    if !firewallOk {
      return;
    }
    FirewallConcludes(g, policy, x, now);
    ghost var p, a, b := PairFor(g, x), SSHAbsent(g, x), MongoAbsent(g, x);
    var validated := ValidateMutationIntents(g, policy.operator, x.principal, x.runID, x.intents, x.rules, targets.value,
                                             p, a, b, x.productionCIDRs, x.lifetime.projectID,
                                             g.lifetimeDigest(x.lifetime));
    OperatorBound(g, policy, x);
    if validated.None? {
      return;
    }
    if !Emittable(g, policy.projectID, x.expected, x.observed, x.principal, validated.value) {
      return;
    }
    intents := validated;
    fingerprint := Some(Fingerprint(policy, x, targets.value, validated.value));
  }

  /** Selecting in key order loses and adds no target. */
  lemma SelectionKeeps(g: Grammar, policy: Policy, x: PreMutationInput, now: Time)
    ensures CapacityProved(g, x.capacity, policy.limits, x.runID, SortBy(TargetLess, x.targets)) <==>
            CapacityProved(g, x.capacity, policy.limits, x.runID, x.targets)
    ensures FirewallProved(g, x.rules, x.observations, x.productionCIDRs, SortBy(TargetLess, x.targets),
                           ContextOf(policy, x, now)) <==>
            FirewallProved(g, x.rules, x.observations, x.productionCIDRs, x.targets, ContextOf(policy, x, now))
  {
    hide SortBy, LifetimeAccepted, PairAdmissible, RequiredPair, AbsentTargets, BothRules, BothObserved, PlanOk,
      SnapshotOf, InstanceOk, DiskOk, LimitsOk, WithinCaps, TargetPlanned, DistinctBy;
    SortKeeps(TargetLess, x.targets);
    var sorted, context := SortBy(TargetLess, x.targets), ContextOf(policy, x, now);
    var p := RequiredPair(context.lifetime.projectID, context.runID, g.lifetimeDigest(context.lifetime));
    assert forall a: bool, b: bool :: Arranged(g, p, x.rules, x.observations, sorted, a, b) <==>
                                      Arranged(g, p, x.rules, x.observations, x.targets, a, b);
  }

  lemma OperatorBound(g: Grammar, policy: Policy, x: PreMutationInput)
    requires PolicyAccepted(g, policy, x)
    ensures x.principal == policy.operator
    ensures Due(g, x) == AbsentInserts(PairFor(g, x), SSHAbsent(g, x), MongoAbsent(g, x))
  {
  }

  /** The firewall proof pins rules, observations and selected targets to the two absences. */
  lemma FirewallConcludes(g: Grammar, policy: Policy, x: PreMutationInput, now: Time)
    requires FirewallProved(g, x.rules, x.observations, x.productionCIDRs, x.targets, ContextOf(policy, x, now))
    ensures PairOf(g, PairFor(g, x), x.productionCIDRs, x.runID, x.lifetime.projectID, g.lifetimeDigest(x.lifetime))
    ensures Arranged(g, PairFor(g, x), x.rules, x.observations, x.targets, SSHAbsent(g, x), MongoAbsent(g, x))
    ensures SortBy(TargetLess, x.targets) == AbsentTargets(PairFor(g, x), SSHAbsent(g, x), MongoAbsent(g, x))
  {
    hide RequiredPair, PairAdmissible, LifetimeAccepted, SortBy, AbsentTargets, BothRules, RuleAccepted, Normalize,
      ValidIdentity;
    var p, fingerprint := PairFor(g, x), g.lifetimeDigest(x.lifetime);
    var a: bool, b: bool :| Arranged(g, p, x.rules, x.observations, x.targets, a, b);
    PairFacts(g, p, x.productionCIDRs, x.runID, x.lifetime.projectID, fingerprint);
    ObservedOrder(p, x.observations, a, b);
    assert a == SSHAbsent(g, x) && b == MongoAbsent(g, x);
    AbsentTargetsSelectable(g, p, x.productionCIDRs, x.runID, x.lifetime.projectID, fingerprint, a, b);
    SortCanonical(TargetLess, AbsentTargets(p, a, b), x.targets);
  }
}
