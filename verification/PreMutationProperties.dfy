/** What authorising and then revalidating guarantees about evidence, intents and time. */
module PreMutationProperties {
  import opened Common
  import opened Text
  import opened Cidr
  import opened Collections
  import opened Evidence
  import opened Firewall
  import opened FirewallProof
  import opened Guard
  import opened Capacity
  import opened PreMutation

  // ----- Decisions and boundaries -----

  datatype Decision = Decision(fingerprint: Payload, operation: OperationBinding, authorizedAt: Time, validUntil: Time)

  datatype Disposition = Ready | Converged

  datatype MutationBoundary = MutationBoundary(
    operation: OperationBinding, principal: Principal, intents: seq<Intent>, disposition: Disposition)

  function Decide(g: Grammar, policy: Policy, x: PreMutationInput, now: Time): Decision {
    Decision(EvidenceFingerprint(g, policy, x), x.operation, now, x.freshness.validUntil)
  }

  method AuthorizePreMutation(g: Grammar, policy: Policy, x: PreMutationInput, now: Time)
    returns (decision: Option<Decision>)
    ensures decision.Some? <==> Accepted(g, policy, x, now)
    ensures decision.Some? ==> decision.value == Decide(g, policy, x, now)
  {
    hide Accepted, EvidenceFingerprint;
    var intents, fingerprint := EvaluatePreMutation(g, policy, x, now);
    if intents.None? {
      return None;
    }
    return Some(Decision(fingerprint.value, x.operation, now, x.freshness.validUntil));
  }

  /** The instants under which a decision may be revalidated. */
  predicate Timely(d: Decision, f: Freshness, now: Time) {
    && !now.IsZero() && !d.authorizedAt.IsZero() && !d.validUntil.IsZero()
    && !now.Before(d.authorizedAt) && f.observedAt.After(d.authorizedAt) && f.validUntil.Equal(d.validUntil)
  }

  ghost predicate Revalidates(g: Grammar, d: Decision, policy: Policy, latest: PreMutationInput, now: Time) {
    && Timely(d, latest.freshness, now) && Accepted(g, policy, latest, now)
    && EvidenceFingerprint(g, policy, latest) == d.fingerprint && latest.operation == d.operation
  }

  function BoundaryOf(g: Grammar, x: PreMutationInput): MutationBoundary {
    MutationBoundary(x.operation, x.principal, Due(g, x), if Due(g, x) == [] then Converged else Ready)
  }

  method RevalidatePreMutation(g: Grammar, d: Decision, policy: Policy, latest: PreMutationInput, now: Time)
    returns (boundary: Option<MutationBoundary>)
    ensures boundary.Some? <==> Revalidates(g, d, policy, latest, now)
    ensures boundary.Some? ==> boundary.value == BoundaryOf(g, latest)
  {
    hide Accepted, EvidenceFingerprint, Due;
    if now.IsZero() {
      return None;
    }
    if d.authorizedAt.IsZero() || d.validUntil.IsZero() || now.Before(d.authorizedAt) ||
       !latest.freshness.observedAt.After(d.authorizedAt) || !latest.freshness.validUntil.Equal(d.validUntil)
    {
      return None;
    }
    var intents, fingerprint := EvaluatePreMutation(g, policy, latest, now);
    if intents.None? {
      return None;
    }
    if fingerprint.value != d.fingerprint || latest.operation != d.operation {
      return None;
    }
    var disposition := Ready;
    if |intents.value| == 0 {
      disposition := Converged;
    }
    return Some(MutationBoundary(latest.operation, latest.principal, intents.value, disposition));
  }

  // ----- Intents -----

  /** The boundary inserts exactly the required rules confirmed absent, each
      carrying the required rule itself; it is converged exactly when both are present. */
  lemma IntentsAreTheAbsentRules(g: Grammar, policy: Policy, x: PreMutationInput, now: Time)
    requires Accepted(g, policy, x, now)
    ensures |x.rules| == 2 && x.rules[0].purpose != x.rules[1].purpose
    ensures forall i :: i in BoundaryOf(g, x).intents <==>
              exists r :: r in x.rules && i == InsertOf(r) && Observation(r.identity, Absent, None) in x.observations
    ensures Distinct(BoundaryOf(g, x).intents)
    ensures BoundaryOf(g, x).disposition.Converged? <==>
              forall r :: r in x.rules ==> Observation(r.identity, Present, Some(r)) in x.observations
  {
    hide EvidenceProved, IntentsProved, FreshAt, FirewallProved, RequiredPair, PairAdmissible, RuleAccepted, Normalize,
      ValidIdentity, SortBy, AbsentTargets;
    FirewallConcludes(g, policy, x, now);
    var p, a, b := PairFor(g, x), SSHAbsent(g, x), MongoAbsent(g, x);
    PairFacts(g, p, x.productionCIDRs, x.runID, x.lifetime.projectID, g.lifetimeDigest(x.lifetime));
    PurposesOfPair(x.lifetime.projectID, x.runID, g.lifetimeDigest(x.lifetime));
    PickedInserts(p, x.rules, x.observations, a, b);
  }

  lemma PickedInserts(p: Pair, rules: seq<FirewallRule>, observations: seq<Observation>, a: bool, b: bool)
    requires BothRules(p, rules) && BothObserved(p, observations, a, b)
    requires Key(p.ssh) != Key(p.mongo) && p.ssh.purpose != p.mongo.purpose
    ensures |rules| == 2 && rules[0].purpose != rules[1].purpose
    ensures forall i :: i in AbsentInserts(p, a, b) <==>
              exists r :: r in rules && i == InsertOf(r) && Observation(r.identity, Absent, None) in observations
    ensures Distinct(AbsentInserts(p, a, b))
    ensures AbsentInserts(p, a, b) == [] <==>
              forall r :: r in rules ==> Observation(r.identity, Present, Some(r)) in observations
  {
    hide BothObserved, BothRules;
    RulesOrder(p, rules);
    ObservedOrder(p, observations, a, b);
    var absentSSH, absentMongo := Observed(p.ssh, true), Observed(p.mongo, true);
    assert absentSSH in observations <==> a;
    assert absentMongo in observations <==> b;
    assert Observed(p.ssh, false) in observations <==> !a;
    assert Observed(p.mongo, false) in observations <==> !b;
    forall i ensures i in AbsentInserts(p, a, b) <==>
        exists r :: r in rules && i == InsertOf(r) && Observation(r.identity, Absent, None) in observations
    {
      assert i in AbsentInserts(p, a, b) <==> (a && i == InsertOf(p.ssh)) || (b && i == InsertOf(p.mongo));
      if a && i == InsertOf(p.ssh) {
        assert p.ssh in rules && Observation(p.ssh.identity, Absent, None) in observations;
      }
      if b && i == InsertOf(p.mongo) {
        assert p.mongo in rules && Observation(p.mongo.identity, Absent, None) in observations;
      }
    }
  }

  lemma RulesOrder(p: Pair, rules: seq<FirewallRule>)
    requires BothRules(p, rules) && Key(p.ssh) != Key(p.mongo)
    ensures rules == [p.ssh, p.mongo] || rules == [p.mongo, p.ssh]
    ensures |rules| == 2 && forall r :: r in rules <==> r == p.ssh || r == p.mongo
  {
    TwoInEitherOrder(rules, p.ssh, p.mongo);
  }

  // ----- Same evidence -----

  /** The same evidence in another order, observed at any time. */
  ghost predicate Reordered(a: PreMutationInput, b: PreMutationInput) {
    && a.operation == b.operation && a.runID == b.runID && multiset(a.targets) == multiset(b.targets)
    && a.capacity.plan == b.capacity.plan && a.capacity.snapshot == b.capacity.snapshot
    && multiset(a.capacity.instances) == multiset(b.capacity.instances)
    && multiset(a.capacity.disks) == multiset(b.capacity.disks)
    && a.capacity.lifetime == b.capacity.lifetime && a.capacity.costMicros == b.capacity.costMicros
    && a.testCIDR == b.testCIDR && multiset(a.productionCIDRs) == multiset(b.productionCIDRs)
    && multiset(a.environments) == multiset(b.environments) && multiset(a.locks) == multiset(b.locks)
    && a.principal == b.principal && multiset(a.intents) == multiset(b.intents)
    && multiset(a.expected) == multiset(b.expected) && multiset(a.observed) == multiset(b.observed)
    && multiset(a.rules) == multiset(b.rules) && multiset(a.observations) == multiset(b.observations)
    && a.lifetime == b.lifetime && a.freshness.revision == b.freshness.revision
  }

  /** Accepted evidence is already in normal form, so digesting it loses nothing but order. */
  lemma AcceptedIsNormal(g: Grammar, policy: Policy, x: PreMutationInput, now: Time)
    requires Accepted(g, policy, x, now)
    ensures NormalRules(x.rules) == x.rules && NormalObservations(x.observations) == x.observations
    ensures NormalIntents(Due(g, x)) == Due(g, x)
    ensures DistinctBy((r: FirewallRule) => r.purpose, x.rules) && DistinctBy(ObservationKey, x.observations)
  {
    hide EvidenceProved, IntentsProved, FreshAt, FirewallProved, RequiredPair, PairAdmissible, RuleAccepted, Normalize,
      ValidIdentity, SortBy, AbsentTargets;
    FirewallConcludes(g, policy, x, now);
    var p, a, b := PairFor(g, x), SSHAbsent(g, x), MongoAbsent(g, x);
    PairFacts(g, p, x.productionCIDRs, x.runID, x.lifetime.projectID, g.lifetimeDigest(x.lifetime));
    PurposesOfPair(x.lifetime.projectID, x.runID, g.lifetimeDigest(x.lifetime));
    PairIsNormal(p, x.rules, x.observations, Due(g, x), a, b);
    NormalLists(x.rules, x.observations, Due(g, x));
  }

  lemma PairIsNormal(p: Pair, rules: seq<FirewallRule>, observations: seq<Observation>, intents: seq<Intent>, a: bool, b: bool)
    requires BothRules(p, rules) && BothObserved(p, observations, a, b) && intents == AbsentInserts(p, a, b)
    requires Key(p.ssh) != Key(p.mongo) && p.ssh.purpose != p.mongo.purpose
    requires Normalize(p.ssh) == p.ssh && Normalize(p.mongo) == p.mongo
    ensures forall r :: r in rules ==> Normalize(r) == r
    ensures forall o :: o in observations ==> NormalObservation(o) == o
    ensures forall i :: i in intents ==> NormalIntent(i) == i
    ensures DistinctBy((r: FirewallRule) => r.purpose, rules) && DistinctBy(ObservationKey, observations)
  {
    hide Normalize, BothRules, BothObserved;
    RulesOrder(p, rules);
    ObservedOrder(p, observations, a, b);
  }

  lemma {:induction false} NormalLists(rules: seq<FirewallRule>, observations: seq<Observation>, intents: seq<Intent>)
    requires forall r :: r in rules ==> Normalize(r) == r
    requires forall o :: o in observations ==> NormalObservation(o) == o
    requires forall i :: i in intents ==> NormalIntent(i) == i
    ensures NormalRules(rules) == rules && NormalObservations(observations) == observations
    ensures NormalIntents(intents) == intents
    decreases |rules| + |observations| + |intents|
  {
    hide Normalize, NormalObservation, NormalIntent;
    if rules != [] {
      assert rules == [rules[0]] + rules[1..];
      NormalLists(rules[1..], observations, intents);
    } else if observations != [] {
      assert observations == [observations[0]] + observations[1..];
      NormalLists(rules, observations[1..], intents);
    } else if intents != [] {
      assert intents == [intents[0]] + intents[1..];
      NormalLists(rules, observations, intents[1..]);
    }
  }

  /** Equal digests of accepted evidence mean equal policies and the same evidence up to order. */
  lemma SameFingerprintSameEvidence(g: Grammar, policyA: Policy, a: PreMutationInput, t: Time, policyB: Policy,
                                    b: PreMutationInput, u: Time)
    requires Accepted(g, policyA, a, t) && Accepted(g, policyB, b, u)
    requires EvidenceFingerprint(g, policyA, a) == EvidenceFingerprint(g, policyB, b)
    ensures policyA == policyB && Reordered(a, b)
  {
    hide SortBy, NormalRules, NormalObservations, NormalIntents, EvidenceProved, FirewallProved, FreshAt, Due,
      Emittable, TupleLess, LexLess;
    AcceptedIsNormal(g, policyA, a, t);
    AcceptedIsNormal(g, policyB, b, u);
    SortedAlike(TargetLess, a.targets, b.targets);
    SortedAlike(InstanceLess, a.capacity.instances, b.capacity.instances);
    SortedAlike(DiskLess, a.capacity.disks, b.capacity.disks);
    SortedAlike(LexLess, a.productionCIDRs, b.productionCIDRs);
    SortedAlike(EnvironmentLess, a.environments, b.environments);
    SortedAlike(LockLess, a.locks, b.locks);
    SortedAlike(IntentLess, Due(g, a), Due(g, b));
    SortedAlike(PermissionLess, a.expected, b.expected);
    SortedAlike(PermissionLess, a.observed, b.observed);
    SortedAlike(RuleLess, a.rules, b.rules);
    SortedAlike(ObservationLess, a.observations, b.observations);
  }

  lemma EnvironmentsReordered(p: Patterns, a: seq<EnvironmentIdentity>, b: seq<EnvironmentIdentity>,
                              pin: Pin<seq<EnvironmentIdentity>>)
    requires EnvironmentsPinned(p, a, pin) && multiset(a) == multiset(b)
    ensures EnvironmentsPinned(p, b, pin)
  {
    hide ExpectedOk, TupleLess, SortBy;
    ReorderKeepsElements(a, b);
    DistinctByReordered((e: EnvironmentIdentity) => e.environment, a, b);
    forall x, y | x in a && y in a && EnvironmentKey(x) == EnvironmentKey(y) ensures x == y {
      assert EnvironmentKey(x)[0] == EnvironmentKey(y)[0] && EnvironmentKey(x)[1] == EnvironmentKey(y)[1];
    }
    KeyOrders(EnvironmentLess, EnvironmentKey, a);
    SortCanonical(EnvironmentLess, a, b);
  }

  lemma CIDRsReordered(g: Grammar, a: seq<string>, b: seq<string>, pin: Pin<seq<string>>)
    requires CIDRsPinned(g, a, pin) && multiset(a) == multiset(b)
    ensures CIDRsPinned(g, b, pin)
  {
    hide CanonicalFour, LexLess, SortBy;
    ReorderKeepsElements(a, b);
    DistinctMultiset(a);
    DistinctOccurrences(b);
    LexKeyOrders(LexLess, (s: string) => s, a);
    SortCanonical(LexLess, a, b);
  }

  lemma TargetsReordered(g: Grammar, runID: string, a: seq<Target>, b: seq<Target>)
    requires Selectable(g, runID, a) && multiset(a) == multiset(b)
    ensures Selectable(g, runID, b) && SortBy(TargetLess, a) == SortBy(TargetLess, b)
  {
    hide TargetOk, LexLess, SortBy;
    ReorderKeepsElements(a, b);
    DistinctByReordered(TargetKey, a, b);
    DistinctByIsDistinct(TargetKey, a);
    LexKeyOrders(TargetLess, TargetKey, a);
    SortCanonical(TargetLess, a, b);
  }

  lemma LocksSortAlike(p: Patterns, a: seq<EnvironmentLock>, b: seq<EnvironmentLock>, expected: seq<EnvironmentIdentity>,
                       runID: string, harness: Principal)
    requires ExactLockSet(p, a, expected, runID, harness) && multiset(a) == multiset(b)
    ensures SortBy(LockLess, a) == SortBy(LockLess, b)
  {
    hide LockOk, TupleLess, SortBy, Observes;
    DistinctByIsDistinct((l: EnvironmentLock) => l.environment, a);
    forall x, y | x in a && y in a && LockKey(x) == LockKey(y) ensures x == y {
      assert LockKey(x)[0] == LockKey(y)[0];
      var key := (l: EnvironmentLock) => l.environment;
      assert key(x) == key(y);
    }
    KeyOrders(LockLess, LockKey, a);
    SortCanonical(LockLess, a, b);
  }

  lemma ProjectReordered(project: string, a: PreMutationInput, b: PreMutationInput)
    requires InProject(project, a) && Reordered(a, b)
    ensures InProject(project, b)
  {
    ReorderKeepsElements(a.targets, b.targets);
    ReorderKeepsElements(a.capacity.instances, b.capacity.instances);
    ReorderKeepsElements(a.capacity.disks, b.capacity.disks);
    ReorderKeepsElements(a.rules, b.rules);
    ReorderKeepsElements(a.observations, b.observations);
    ReorderKeepsElements(a.expected, b.expected);
    ReorderKeepsElements(a.observed, b.observed);
  }

  /** The evidence proofs do not depend on the order of any list. */
  lemma EvidenceReordered(g: Grammar, policy: Policy, a: PreMutationInput, b: PreMutationInput)
    requires EvidenceProved(g, policy, a) && Reordered(a, b)
    ensures EvidenceProved(g, policy, b)
  {
    hide InProject, CapacityProved, ExactLockSet, PermissionProof, Selectable, EnvironmentsPinned, CIDRsPinned, Clear,
      CanonicalFour, Inside, PrincipalsOk, LimitsOk, PinNamed, OperationOk, SortBy;
    EnvironmentsReordered(g.patterns, a.environments, b.environments, policy.environments);
    CIDRsReordered(g, a.productionCIDRs, b.productionCIDRs, policy.productionCIDRs);
    TargetsReordered(g, a.runID, a.targets, b.targets);
    ProjectReordered(policy.projectID, a, b);
    CapacityReordered(g, a.capacity, b.capacity, policy.limits, a.runID, a.targets, b.targets);
    ReorderKeepsElements(a.productionCIDRs, b.productionCIDRs);
    LocksReordered(g.patterns, a.locks, b.locks, a.environments, b.environments, a.runID, a.principal);
    PermissionsReordered(g.patterns, g.forbiddenWrite, policy.permissions, a.expected, b.expected, a.observed, b.observed,
                         a.principal);
  }

  lemma FirewallReordered(g: Grammar, policy: Policy, a: PreMutationInput, t: Time, b: PreMutationInput, u: Time)
    requires FirewallProved(g, a.rules, a.observations, a.productionCIDRs, a.targets, ContextOf(policy, a, t))
    requires Reordered(a, b) && LifetimeAccepted(g, ContextOf(policy, b, u))
    ensures FirewallProved(g, b.rules, b.observations, b.productionCIDRs, b.targets, ContextOf(policy, b, u))
    ensures Due(g, a) == Due(g, b)
  {
    hide LifetimeAccepted, RequiredPair, PairAdmissible, Arranged, Due, Reordered;
    var p := PairFor(g, a);
    var x: bool, y: bool :| Arranged(g, p, a.rules, a.observations, a.targets, x, y);
    ReorderedParts(a, b);
    ArrangedReordered(g, p, a, b, x, y);
    SameDue(g, a, b);
    AdmissibleReordered(g, a.productionCIDRs, b.productionCIDRs, a.runID, a.lifetime.projectID, g.lifetimeDigest(a.lifetime));
  }

  lemma ReorderedParts(a: PreMutationInput, b: PreMutationInput)
    requires Reordered(a, b)
    ensures a.runID == b.runID && a.lifetime == b.lifetime && multiset(a.productionCIDRs) == multiset(b.productionCIDRs)
  {
  }

  lemma ArrangedReordered(g: Grammar, p: Pair, a: PreMutationInput, b: PreMutationInput, x: bool, y: bool)
    requires Reordered(a, b) && Arranged(g, p, a.rules, a.observations, a.targets, x, y)
    ensures Arranged(g, p, b.rules, b.observations, b.targets, x, y)
  {
    hide AbsentTargets, Observed;
  }

  lemma SameDue(g: Grammar, a: PreMutationInput, b: PreMutationInput)
    requires Reordered(a, b)
    ensures Due(g, a) == Due(g, b)
  {
    hide RequiredPair;
    ReorderKeepsElements(a.observations, b.observations);
  }

  lemma AdmissibleReordered(g: Grammar, a: seq<string>, b: seq<string>, runID: string, projectID: string,
                            fingerprint: string)
    requires multiset(a) == multiset(b) && PairAdmissible(g, a, runID, projectID, fingerprint)
    ensures PairAdmissible(g, b, runID, projectID, fingerprint)
  {
    hide ValidIdentity, GlobalIdentity, RuleName, NodeTag, CanonicalFour, PrefixesOverlap;
    ReorderKeepsElements(a, b);
    DistinctMultiset(a);
    DistinctOccurrences(b);
  }

  lemma IntentsReordered(g: Grammar, policy: Policy, a: PreMutationInput, b: PreMutationInput)
    requires IntentsProved(g, policy, a) && Reordered(a, b) && Due(g, a) == Due(g, b)
    ensures IntentsProved(g, policy, b)
  {
    hide Due, ProjectResource;
    ReorderKeepsElements(a.expected, b.expected);
    ReorderKeepsElements(a.observed, b.observed);
  }

  /** The order of accepted evidence does not matter: every reordering that is
      itself fresh is accepted, leaves the same intents and has the same digest. */
  lemma ReorderingAccepted(g: Grammar, policy: Policy, a: PreMutationInput, t: Time, b: PreMutationInput, u: Time)
    requires Accepted(g, policy, a, t) && Reordered(a, b)
    requires FreshAt(b.freshness, u) && LifetimeAccepted(g, ContextOf(policy, b, u))
    ensures Accepted(g, policy, b, u) && Due(g, a) == Due(g, b)
    ensures EvidenceFingerprint(g, policy, a) == EvidenceFingerprint(g, policy, b)
  {
    hide FreshAt, EvidenceProved, FirewallProved, IntentsProved, LifetimeAccepted, Due, Fingerprint, Reordered,
      ContextOf;
    EvidenceReordered(g, policy, a, b);
    FirewallReordered(g, policy, a, t, b, u);
    IntentsReordered(g, policy, a, b);
    AcceptedIsNormal(g, policy, a, t);
    AcceptedIsNormal(g, policy, b, u);
    DigestsAgree(g, policy, a, b);
  }

  lemma DigestsAgree(g: Grammar, policy: Policy, a: PreMutationInput, b: PreMutationInput)
    requires EvidenceProved(g, policy, a) && Reordered(a, b) && Due(g, a) == Due(g, b)
    requires NormalRules(a.rules) == a.rules && NormalRules(b.rules) == b.rules
    requires NormalObservations(a.observations) == a.observations && NormalObservations(b.observations) == b.observations
    requires DistinctBy((r: FirewallRule) => r.purpose, a.rules) && DistinctBy(ObservationKey, a.observations)
    ensures EvidenceFingerprint(g, policy, a) == EvidenceFingerprint(g, policy, b)
  {
    hide SortBy, Due, NormalRules, NormalObservations, NormalIntents, PolicyAccepted, CapacityProved, NetworkProved,
      ExactLockSet, PermissionProof, InProject, Selectable, LexLess, TupleLess, OperationOk;
    TargetsReordered(g, a.runID, a.targets, b.targets);
    CapacityReordered(g, a.capacity, b.capacity, policy.limits, a.runID, a.targets, b.targets);
    CIDRsSortAlike(a.productionCIDRs, b.productionCIDRs);
    EnvironmentsSortAlike(a.environments, b.environments);
    LocksSortAlike(g.patterns, a.locks, b.locks, a.environments, a.runID, a.principal);
    PermissionsSortAlike(g, policy, a, b);
    DistinctByIsDistinct((r: FirewallRule) => r.purpose, a.rules);
    LexKeyOrders(RuleLess, (r: FirewallRule) => r.purpose, a.rules);
    SortCanonical(RuleLess, a.rules, b.rules);
    DistinctByIsDistinct(ObservationKey, a.observations);
    LexKeyOrders(ObservationLess, ObservationKey, a.observations);
    SortCanonical(ObservationLess, a.observations, b.observations);
  }

  lemma CIDRsSortAlike(a: seq<string>, b: seq<string>)
    requires multiset(a) == multiset(b)
    ensures SortBy(LexLess, a) == SortBy(LexLess, b)
  {
    hide LexLess, SortBy;
    LexKeyOrders(LexLess, (s: string) => s, a);
    SortCanonical(LexLess, a, b);
  }

  lemma EnvironmentsSortAlike(a: seq<EnvironmentIdentity>, b: seq<EnvironmentIdentity>)
    requires multiset(a) == multiset(b)
    ensures SortBy(EnvironmentLess, a) == SortBy(EnvironmentLess, b)
  {
    hide TupleLess, SortBy;
    forall x, y | x in a && y in a && EnvironmentKey(x) == EnvironmentKey(y) ensures x == y {
      assert EnvironmentKey(x)[0] == EnvironmentKey(y)[0] && EnvironmentKey(x)[1] == EnvironmentKey(y)[1];
    }
    KeyOrders(EnvironmentLess, EnvironmentKey, a);
    SortCanonical(EnvironmentLess, a, b);
  }

  lemma PermissionsSortAlike(g: Grammar, policy: Policy, a: PreMutationInput, b: PreMutationInput)
    requires PermissionProof(g.patterns, g.forbiddenWrite, policy.permissions, a.expected, a.observed, a.principal)
    requires multiset(a.expected) == multiset(b.expected) && multiset(a.observed) == multiset(b.observed)
    ensures SortBy(PermissionLess, a.expected) == SortBy(PermissionLess, b.expected)
    ensures SortBy(PermissionLess, a.observed) == SortBy(PermissionLess, b.observed)
  {
    hide TupleLess, SortBy, ObservationOk;
    PermissionsReordered(g.patterns, g.forbiddenWrite, policy.permissions, a.expected, b.expected, a.observed, b.observed,
                         a.principal);
  }

  // ----- Revalidation -----

  /** Revalidating an authorised decision succeeds exactly when the policy is the
      same, the latest evidence is the authorised evidence reordered, and both it
      and the lifetime record are in time. */
  lemma RevalidatesExactlyReordering(g: Grammar, policyA: Policy, a: PreMutationInput, t: Time, policyB: Policy,
                                     b: PreMutationInput, u: Time)
    requires Accepted(g, policyA, a, t)
    ensures Revalidates(g, Decide(g, policyA, a, t), policyB, b, u) <==>
            && policyA == policyB && Reordered(a, b) && Timely(Decide(g, policyA, a, t), b.freshness, u)
            && FreshAt(b.freshness, u) && LifetimeAccepted(g, ContextOf(policyB, b, u))
  {
    hide EvidenceProved, IntentsProved, FreshAt, EvidenceFingerprint, Timely, LifetimeAccepted, ContextOf, RequiredPair,
      PairAdmissible, Arranged;
    if Revalidates(g, Decide(g, policyA, a, t), policyB, b, u) {
      SameFingerprintSameEvidence(g, policyA, a, t, policyB, b, u);
    }
    if policyA == policyB && Reordered(a, b) && FreshAt(b.freshness, u) && LifetimeAccepted(g, ContextOf(policyB, b, u)) {
      ReorderingAccepted(g, policyA, a, t, b, u);
    }
  }

  /** One refresh of a chain: evidence, the instant it revalidated the decision
      before (the first link revalidates nothing) and the instant it was authorised at. */
  datatype Link = Link(policy: Policy, evidence: PreMutationInput, revalidatedAt: Time, authorizedAt: Time)

  function DecisionOf(g: Grammar, link: Link): Decision {
    Decide(g, link.policy, link.evidence, link.authorizedAt)
  }

  /** Each link's evidence revalidated the decision of the one before, and was
      authorised anew, then or at any other instant. */
  ghost predicate Chain(g: Grammar, links: seq<Link>) {
    && (forall i :: 0 <= i < |links| ==> Accepted(g, links[i].policy, links[i].evidence, links[i].authorizedAt))
    && (forall i :: 0 < i < |links| ==>
          Revalidates(g, DecisionOf(g, links[i - 1]), links[i].policy, links[i].evidence, links[i].revalidatedAt))
  }

  lemma {:induction false} ChainKeepsExpiry(g: Grammar, links: seq<Link>)
    requires links != [] && Chain(g, links)
    ensures links[|links| - 1].evidence.freshness.validUntil.instant == links[0].evidence.freshness.validUntil.instant
  {
    hide EvidenceProved, IntentsProved, FirewallProved, EvidenceFingerprint;
    var last := |links| - 1;
    if last > 0 {
      ChainKeepsExpiry(g, links[..last]);
      assert Timely(DecisionOf(g, links[last - 1]), links[last].evidence.freshness, links[last].revalidatedAt);
    }
  }

  /** However often the evidence is refreshed, nothing is revalidated or
      authorised five minutes or more after the first authorisation. */
  lemma RefreshingNeverExtends(g: Grammar, links: seq<Link>)
    requires links != [] && Chain(g, links)
    ensures var last := links[|links| - 1];
            && last.authorizedAt.instant < links[0].authorizedAt.instant + MAX_PROOF_LIFETIME
            && (|links| > 1 ==> last.revalidatedAt.instant < links[0].authorizedAt.instant + MAX_PROOF_LIFETIME)
  {
    hide EvidenceProved, IntentsProved, FirewallProved, EvidenceFingerprint, DecisionOf;
    ChainKeepsExpiry(g, links);
    var first, last := links[0], links[|links| - 1];
    assert Accepted(g, first.policy, first.evidence, first.authorizedAt);
    assert Accepted(g, last.policy, last.evidence, last.authorizedAt);
    assert |links| > 1 ==> Revalidates(g, DecisionOf(g, links[|links| - 2]), last.policy, last.evidence, last.revalidatedAt);
  }

  /** Revalidated boundaries of one chain all order the same inserts. */
  lemma {:induction false} ChainKeepsIntents(g: Grammar, links: seq<Link>)
    requires links != [] && Chain(g, links)
    ensures BoundaryOf(g, links[|links| - 1].evidence) == BoundaryOf(g, links[0].evidence)
  {
    hide EvidenceProved, IntentsProved, FirewallProved, EvidenceFingerprint, Due, FreshAt;
    var last := |links| - 1;
    if last > 0 {
      ChainKeepsIntents(g, links[..last]);
      var a, b := links[last - 1], links[last];
      assert Revalidates(g, DecisionOf(g, a), b.policy, b.evidence, b.revalidatedAt);
      SameFingerprintSameEvidence(g, a.policy, a.evidence, a.authorizedAt, b.policy, b.evidence, b.revalidatedAt);
      SameDue(g, a.evidence, b.evidence);
    }
  }
}
