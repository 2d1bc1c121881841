/** Evidence the pre-mutation guard accepts: both run firewalls absent, both inserts due. */
module PreMutationExample {
  import opened Common
  import opened Text
  import opened Cidr
  import opened Collections
  import opened Evidence
  import opened Firewall
  import opened FirewallProof
  import opened Guard
  import opened Capacity
  import opened PreMutation
  import opened PreMutationProperties

  /** The digest and identifiers of the example, as texts of the right form. */
  datatype Texts = Texts(digest: DigestText, operationID: string, planID: string, recordID: string) {
    predicate Valid() {
      IsDigest(digest) && IsOperationID(operationID) && IsPlanID(planID) && IsLifetimeRecordID(recordID)
    }
  }

  const PROJECT := "p"
  const RUN := "r"
  const NET := "t"
  const PRODUCTION := "q"
  const OPERATOR_ACCOUNT := Principal(SERVICE_ACCOUNT, "o")
  const DESTRUCTIVE_ACCOUNT := Principal(SERVICE_ACCOUNT, "d")
  const NOW := Time(1000, 0)
  const TEST_BLOCK: Block := Prefix(10 * 0x100_0000, 24)
  const SOURCE_BLOCK: Block := Prefix(35 * 0x100_0000, 24)
  const PRODUCTION_BLOCK: Block := Prefix(20 * 0x100_0000, 24)

  function Parsing(s: string): Parsed {
    if s == NET then Four(TEST_BLOCK) else if s == IAP_SOURCE then Four(SOURCE_BLOCK) else Four(PRODUCTION_BLOCK)
  }

  function Language(x: Texts): Grammar {
    Grammar(Patterns(s => true, s => true, p => true, s => true, s => true, s => true, s => true),
            s => true, Parsing, c => x.digest, s => false)
  }

  function Machine1(): PlannedInstance {
    var i := Identity(PROJECT, COMPUTE, INSTANCES, Zone, "z", "", TEST_PREFIX + RUN + "-" + "a", "");
    PlannedInstance(i.(canonicalKey := CanonicalTargetKey(i)), RUN, MachineShape(2, 2))
  }

  function PlanOf(x: Texts): PlanIdentity { PlanIdentity(x.planID, x.digest) }

  function CapacityOf(x: Texts): CapacityInput {
    var c := CapacityInput(PlanOf(x), Snapshot(PlanOf(x), [], [], 100, 1), [Machine1()], [], 100, 1);
    c.(snapshot := SnapshotOf(c))
  }

  function LifetimeOf(x: Texts): RunLifetime {
    RunLifetime(PROJECT, RUN, PlanOf(x), x.operationID, x.recordID, 1, Time(990, 0), Time(1050, 0), TEARDOWN)
  }

  function Grants(): seq<PermissionObservation> {
    [PermissionObservation(OPERATOR_ACCOUNT, ProjectResource(PROJECT), "compute.firewalls.create", true),
     PermissionObservation(OPERATOR_ACCOUNT, ProjectResource(PROJECT), "compute.networks.updatePolicy", true)]
  }

  const ENVIRONMENTS := [EnvironmentIdentity("e", "production")]
  const LOCKS := [EnvironmentLock("e", "production", "", false, NO_PRINCIPAL),
                  EnvironmentLock(TEST_ENVIRONMENT, DISPOSABLE, RUN, true, OPERATOR_ACCOUNT)]

  function PairHere(x: Texts): Pair { RequiredPair(PROJECT, RUN, x.digest) }

  function PolicyHere(): Policy {
    Policy(PROJECT, RunLimits(MachineShape(4, 4), 10, 3, 200, 10), NET, 10, OPERATOR_ACCOUNT, DESTRUCTIVE_ACCOUNT,
           Pin("a", "1", SortBy(PermissionLess, Grants())), Pin("a", "1", SortBy(EnvironmentLess, ENVIRONMENTS)),
           Pin("a", "1", SortBy(LexLess, [PRODUCTION])))
  }

  function Evidence0(x: Texts): PreMutationInput {
    var p := PairHere(x);
    PreMutationInput(
      OperationBinding(x.operationID, "s", 1), RUN, AbsentTargets(p, true, true), CapacityOf(x), NET, [PRODUCTION],
      ENVIRONMENTS, LOCKS, OPERATOR_ACCOUNT, AbsentInserts(p, true, true), Grants(), Grants(), [p.ssh, p.mongo],
      [Observed(p.ssh, true), Observed(p.mongo, true)], LifetimeOf(x), Freshness(x.digest, Time(995, 0), Time(1200, 0)))
  }

  lemma PlainConcat(a: string, b: string)
    requires Plain(a) && Plain(b)
    ensures Plain(a + b)
  {
  }

  lemma RunNamesPlain(suffix: string)
    requires Plain(suffix)
    ensures Plain(TEST_PREFIX + (RUN + ("-" + suffix))) && Plain(TEST_PREFIX + RUN + "-" + suffix)
    ensures RunScoped(TEST_PREFIX + RUN + "-" + suffix, RUN)
  {
    PlainConcat("-", suffix);
    PlainConcat(RUN, "-" + suffix);
    PlainConcat(TEST_PREFIX, RUN + ("-" + suffix));
    assert TEST_PREFIX + (RUN + ("-" + suffix)) == TEST_PREFIX + RUN + "-" + suffix;
  }

  lemma BlocksApart()
    ensures Canonical(TEST_BLOCK) && Canonical(SOURCE_BLOCK) && Canonical(PRODUCTION_BLOCK)
    ensures Disjoint(TEST_BLOCK, PRODUCTION_BLOCK) && !PrefixesOverlap(SOURCE_BLOCK, PRODUCTION_BLOCK)
    ensures Inside(TEST_BLOCK, PRIVATE[0])
  {
    assert Size(24) == 256 by { assert Pow2(8) == 256; }
    OverlapDecidesDisjoint(TEST_BLOCK, PRODUCTION_BLOCK);
    PrivateRangesCanonical();
    assert Size(8) == 0x100_0000 by { assert Pow2(8) == 256; Pow2Sum(8, 16); Pow2Sum(8, 8); }
    PrivateTestIsInside(TEST_BLOCK, PRIVATE[0]);
  }

  lemma NetworkHere(x: Texts)
    ensures NetworkProved(Language(x), NET, [PRODUCTION])
    ensures ProductionCIDRs(Language(x), [PRODUCTION]) && SourceDisjoint(Language(x), IAP_SOURCE, [PRODUCTION])
  {
    hide Canonical, Disjoint, Inside, PrefixesOverlap;
    BlocksApart();
    assert IAP_SOURCE != NET && PRODUCTION != NET && PRODUCTION != IAP_SOURCE by {
      assert |IAP_SOURCE| == 15;
    }
    assert PRIVATE[0].Sized();
  }

  lemma KeyIgnoresItself(i: Identity, key: string)
    ensures CanonicalTargetKey(i.(canonicalKey := key)) == CanonicalTargetKey(i)
  {
  }

  lemma Machine1IsValid()
    ensures InstanceOk(Machine1(), RUN)
  {
    hide CanonicalTargetKey, RunScoped;
    RunNamesPlain("a");
    assert Plain(COMPUTE) && Plain(INSTANCES) && Plain(PROJECT) && Plain("z");
    assert !NestedNAT(Machine1().identity);
    var i := Identity(PROJECT, COMPUTE, INSTANCES, Zone, "z", "", TEST_PREFIX + RUN + "-" + "a", "");
    KeyIgnoresItself(i, CanonicalTargetKey(i));
  }

  lemma GlobalIsValid(kind: string, name: string)
    requires Plain(kind) && Plain(name) && kind != "routerNats"
    ensures ValidIdentity(GlobalIdentity(PROJECT, kind, name))
  {
    hide CanonicalTargetKey;
    assert Plain(COMPUTE) && Plain(PROJECT) && Plain("global");
    var i := Identity(PROJECT, COMPUTE, kind, Global, "global", "", name, "");
    KeyIgnoresItself(i, CanonicalTargetKey(i));
  }

  lemma CapacityHere(x: Texts, targets: seq<Target>)
    requires x.Valid() && forall t :: t in targets ==> t.identity.kind == FIREWALLS
    ensures CapacityProved(Language(x), CapacityOf(x), PolicyHere().limits, RUN, targets)
  {
    hide SortBy, CanonicalTargetKey, RunScoped;
    Machine1IsValid();
    assert FIREWALLS != INSTANCES && FIREWALLS != DISKS;
  }

  lemma LocksHere(x: Texts)
    ensures ExactLockSet(Language(x).patterns, LOCKS, ENVIRONMENTS, RUN, OPERATOR_ACCOUNT)
  {
    assert LOCKS[0].environment == ENVIRONMENTS[0].environment && LOCKS[0].cls == ENVIRONMENTS[0].cls;
    assert Observes(LOCKS, ENVIRONMENTS[0]);
    assert LOCKS[1].cls == DISPOSABLE;
  }

  lemma PermissionsHere(x: Texts)
    ensures PermissionProof(Language(x).patterns, Language(x).forbiddenWrite, PolicyHere().permissions, Grants(), Grants(),
                            OPERATOR_ACCOUNT)
    ensures forall o :: o in Grants() ==> o.resource.project == PROJECT
  {
    hide SortBy, CanonicalTargetKey;
    assert ValidIdentity(ProjectResource(PROJECT)) by { ProjectIsPlain(); }
    assert PermissionKey(Grants()[0])[3] != PermissionKey(Grants()[1])[3] by {
      assert |"compute.firewalls.create"| == 24 && |"compute.networks.updatePolicy"| == 29;
    }
    assert IsStepID("a");
  }

  lemma ProjectIsPlain()
    ensures ValidIdentity(ProjectResource(PROJECT))
  {
    assert Plain(RESOURCE_MANAGER) && Plain(PROJECTS) && Plain(PROJECT) && Plain("global");
  }

  lemma PairAdmissibleHere(x: Texts)
    requires x.Valid()
    ensures PairAdmissible(Language(x), [PRODUCTION], RUN, PROJECT, x.digest)
  {
    hide CanonicalTargetKey, ProductionCIDRs, SourceDisjoint, NodeTag, ValidIdentity, GlobalIdentity;
    NetworkHere(x);
    assert Plain(IAP_SSH) && Plain(MONGO_SUFFIX) && Plain(TEST_VPC);
    RunNamesPlain(IAP_SSH);
    RunNamesPlain(MONGO_SUFFIX);
    assert Plain(FIREWALLS) && Plain(NETWORKS);
    GlobalIsValid(FIREWALLS, RuleName(RUN, IAP_SSH));
    GlobalIsValid(FIREWALLS, RuleName(RUN, INTERNAL_MONGO));
    GlobalIsValid(NETWORKS, TEST_VPC);
  }

  lemma FirewallHere(x: Texts)
    requires x.Valid()
    ensures FirewallProved(Language(x), Evidence0(x).rules, Evidence0(x).observations, [PRODUCTION], Evidence0(x).targets,
                           ContextOf(PolicyHere(), Evidence0(x), NOW))
  {
    hide PairAdmissible, RequiredPair, AbsentTargets, SortBy;
    PairAdmissibleHere(x);
    assert IsStepID("s");
    assert Arranged(Language(x), PairHere(x), Evidence0(x).rules, Evidence0(x).observations, Evidence0(x).targets, true, true);
  }

  lemma PolicyHereAccepted(x: Texts)
    ensures PolicyAccepted(Language(x), PolicyHere(), Evidence0(x))
  {
    hide SortBy, RequiredPair, AbsentTargets, AbsentInserts, CanonicalTargetKey;
    NetworkHere(x);
    assert IsStepID("a");
    assert OPERATOR_ACCOUNT.subject[0] != DESTRUCTIVE_ACCOUNT.subject[0];
  }

  /** The guard accepts something: its theorems are about evidence that exists,
      and here both inserts are due. */
  lemma SomeEvidenceIsAccepted(x: Texts)
    requires x.Valid()
    ensures Accepted(Language(x), PolicyHere(), Evidence0(x), NOW)
    ensures BoundaryOf(Language(x), Evidence0(x)).intents == AbsentInserts(PairHere(x), true, true)
    ensures BoundaryOf(Language(x), Evidence0(x)).disposition.Ready?
  {
    hide RequiredPair, CapacityProved, PolicyAccepted, NetworkProved, ExactLockSet, PermissionProof, FirewallProved,
      SortBy, CanonicalTargetKey, Selectable, RuleAccepted, Normalize, ValidIdentity;
    FirewallHere(x);
    PairAdmissibleHere(x);
    PairFacts(Language(x), PairHere(x), [PRODUCTION], RUN, PROJECT, x.digest);
    AbsentTargetsSelectable(Language(x), PairHere(x), [PRODUCTION], RUN, PROJECT, x.digest, true, true);
    PolicyHereAccepted(x);
    NetworkHere(x);
    LocksHere(x);
    PermissionsHere(x);
    ProjectHere(x);
    CapacityHere(x, Evidence0(x).targets);
  }

  lemma ProjectHere(x: Texts)
    ensures InProject(PROJECT, Evidence0(x))
    ensures forall t :: t in Evidence0(x).targets ==> t.identity.kind == FIREWALLS
  {
    hide CanonicalTargetKey, SortBy, Description, NodeTag, RuleName;
  }
}
