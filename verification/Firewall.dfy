/** The run firewall: one exact rule per purpose, observed exhaustively, inserted only where absent. */
module Firewall {
  import opened Common
  import opened Text
  import opened Cidr
  import opened Collections
  import opened Evidence

  const COMPUTE := "compute.googleapis.com"
  const FIREWALLS := "firewalls"
  const NETWORKS := "networks"
  const TEST_PREFIX := "ctrldb-test-"
  const TEST_VPC := "ctrldb-test-vpc"
  const IAP_SSH := "iap-ssh"
  const INTERNAL_MONGO := "internal-mongodb"
  const MONGO_SUFFIX := "internal"
  const TEARDOWN := "WF-TEST-01"
  const INGRESS := "INGRESS"
  const TCP := "tcp"
  const IAP_SOURCE := "35.235.240.0/20"
  const SSH_PORT: nat := 22
  const MONGO_PORT: nat := 27017
  const PRIORITY: nat := 1000

  datatype OperationBinding = OperationBinding(operationID: string, stepID: string, attempt: uint32)
  datatype MachineShape = MachineShape(vcpus: int, memoryMB: int)
  datatype RunLimits = RunLimits(
    maxMachine: MachineShape, maxDiskGiB: int, maxInstances: int, maxLifetime: int, maxCostMicros: int)

  datatype RunLifetime = RunLifetime(
    projectID: string, runID: string, plan: PlanIdentity, operationID: string, recordID: string,
    recordGeneration: uint64, createdAt: Time, expiresAt: Time, revocation: string)

  datatype Context = Context(
    runID: string, plan: PlanIdentity, operation: OperationBinding, plannedLifetime: int, limits: RunLimits,
    lifetime: RunLifetime, mutationWindow: int, observedAt: Time, now: Time)

  /** The patterns, the prefix parser and the digest of a lifetime record, left abstract. */
  datatype Grammar = Grammar(
    patterns: Patterns, tag: string -> bool, parse: string -> Parsed, lifetimeDigest: RunLifetime -> DigestText,
    forbiddenWrite: string -> bool)

  datatype Traffic = Traffic(protocol: string, ports: seq<nat>)

  datatype FirewallRule = FirewallRule(
    identity: Identity, description: string, network: Identity, runID: string, purpose: string, enabled: bool,
    priority: nat, direction: string, allowed: seq<Traffic>, denied: seq<Traffic>, destinationCIDRs: seq<string>,
    sourceCIDRs: seq<string>, sourceTags: seq<string>, sourceServiceAccounts: seq<string>, targetTags: seq<string>,
    targetServiceAccounts: seq<string>, logEnabled: bool, logMetadata: string,
    resourceManagerTags: map<string, string>, lifetimeFingerprint: string)

  datatype ObservedState = Absent | Present | OtherState(text: string)
  datatype Observation = Observation(identity: Identity, state: ObservedState, presentRule: Option<FirewallRule>)
  datatype Target = Target(identity: Identity, labels: map<string, string>)

  // ----- The lifetime record -----

  predicate OperationOk(o: OperationBinding) {
    IsOperationID(o.operationID) && IsStepID(o.stepID) && o.attempt != 0
  }

  predicate PlanOk(p: PlanIdentity) {
    IsPlanID(p.id) && IsDigest(p.hash)
  }

  predicate IsLifetimeRecordID(s: string) {
    |s| == 25 && s[..9] == "lifetime-" && AllHex(s[9..])
  }

  predicate LifetimeWellFormed(g: Grammar, c: RunLifetime) {
    && g.patterns.project(c.projectID) && g.patterns.runID(c.runID) && PlanOk(c.plan) && IsOperationID(c.operationID)
    && IsLifetimeRecordID(c.recordID) && c.recordGeneration != 0
    && c.createdAt.Canonical() && c.expiresAt.Canonical() && c.revocation == TEARDOWN
  }

  predicate LifetimeAccepted(g: Grammar, x: Context) {
    var c := x.lifetime;
    && LifetimeWellFormed(g, c)
    && c.runID == x.runID && c.plan == x.plan && OperationOk(x.operation) && c.operationID == x.operation.operationID
    && !x.observedAt.IsZero() && !x.now.IsZero() && x.observedAt.offset == 0
    && !x.observedAt.After(x.now) && !c.createdAt.After(x.observedAt)
    && x.plannedLifetime > 0 && x.limits.maxLifetime > 0
    && 0 < x.mutationWindow <= x.plannedLifetime && x.mutationWindow <= x.limits.maxLifetime
    && !c.createdAt.After(x.now) && x.now.Before(c.expiresAt)
    && c.expiresAt.instant - x.now.instant >= x.mutationWindow
    && 0 < c.expiresAt.instant - c.createdAt.instant <= x.plannedLifetime
    && c.expiresAt.instant - c.createdAt.instant <= x.limits.maxLifetime
  }

  // ----- Normal form -----

  predicate PortsLess(a: seq<nat>, b: seq<nat>) {
    if b == [] then false
    else if a == [] then true
    else a[0] < b[0] || (a[0] == b[0] && PortsLess(a[1..], b[1..]))
  }

  predicate TrafficLess(a: Traffic, b: Traffic) {
    if a.protocol != b.protocol then LexLess(a.protocol, b.protocol) else PortsLess(a.ports, b.ports)
  }

  function SortPorts(rules: seq<Traffic>): (r: seq<Traffic>)
    ensures |r| == |rules|
  {
    if rules == [] then []
    else [Traffic(rules[0].protocol, SortBy((a: nat, b: nat) => a < b, rules[0].ports))] + SortPorts(rules[1..])
  }

  function NormalTraffic(rules: seq<Traffic>): seq<Traffic> {
    SortBy(TrafficLess, SortPorts(rules))
  }

  function NormalStrings(values: seq<string>): seq<string> {
    SortBy(LexLess, values)
  }

  function Normalize(r: FirewallRule): FirewallRule {
    r.(allowed := NormalTraffic(r.allowed), denied := NormalTraffic(r.denied),
       destinationCIDRs := NormalStrings(r.destinationCIDRs), sourceCIDRs := NormalStrings(r.sourceCIDRs),
       sourceTags := NormalStrings(r.sourceTags), sourceServiceAccounts := NormalStrings(r.sourceServiceAccounts),
       targetTags := NormalStrings(r.targetTags), targetServiceAccounts := NormalStrings(r.targetServiceAccounts))
  }

  predicate EqualRules(a: FirewallRule, b: FirewallRule) {
    Normalize(a) == Normalize(b)
  }

  lemma SortSmall<T>(less: (T, T) -> bool, s: seq<T>)
    ensures |SortBy(less, s)| == |s|
    ensures |s| <= 1 ==> SortBy(less, s) == s
  {
    SortKeeps(less, s);
    if |s| == 1 {
      assert s[1..] == [];
    }
  }

  lemma TrafficSmall(rules: seq<Traffic>)
    ensures |NormalTraffic(rules)| == |rules|
    ensures |rules| == 1 ==> NormalTraffic(rules) == [Traffic(rules[0].protocol, SortBy((a: nat, b: nat) => a < b, rules[0].ports))]
    ensures |rules| == 1 && |NormalTraffic(rules)[0].ports| <= 1 ==> NormalTraffic(rules) == rules
    ensures |rules| == 0 ==> NormalTraffic(rules) == rules
  {
    SortSmall(TrafficLess, SortPorts(rules));
    if |rules| == 1 {
      assert rules[1..] == [];
      assert SortPorts(rules) == [Traffic(rules[0].protocol, SortBy((a: nat, b: nat) => a < b, rules[0].ports))];
      SortSmall((a: nat, b: nat) => a < b, rules[0].ports);
    }
  }

  /** No list of the rule holds more than one element. */
  predicate Single(r: FirewallRule) {
    && |r.allowed| == 1 && |r.allowed[0].ports| <= 1 && |r.denied| == 0
    && |r.destinationCIDRs| <= 1 && |r.sourceCIDRs| <= 1 && |r.sourceTags| <= 1 && |r.sourceServiceAccounts| <= 1
    && |r.targetTags| <= 1 && |r.targetServiceAccounts| <= 1
  }

  /** A rule whose normal form has nothing to reorder is its own normal form. */
  lemma NormalizeSingle(r: FirewallRule)
    requires Single(Normalize(r))
    ensures Normalize(r) == r
  {
    hide SortBy, NormalTraffic;
    TrafficSmall(r.allowed);
    TrafficSmall(r.denied);
    SortSmall(LexLess, r.destinationCIDRs);
    SortSmall(LexLess, r.sourceCIDRs);
    SortSmall(LexLess, r.sourceTags);
    SortSmall(LexLess, r.sourceServiceAccounts);
    SortSmall(LexLess, r.targetTags);
    SortSmall(LexLess, r.targetServiceAccounts);
  }

  lemma SingleIsNormal(r: FirewallRule)
    requires Single(r)
    ensures Normalize(r) == r
  {
    hide SortBy, NormalTraffic;
    TrafficSmall(r.allowed);
    assert |SortBy((a: nat, b: nat) => a < b, r.allowed[0].ports)| <= 1 by {
      SortSmall((a: nat, b: nat) => a < b, r.allowed[0].ports);
    }
    TrafficSmall(r.denied);
    SortSmall(LexLess, r.destinationCIDRs);
    SortSmall(LexLess, r.sourceCIDRs);
    SortSmall(LexLess, r.sourceTags);
    SortSmall(LexLess, r.sourceServiceAccounts);
    SortSmall(LexLess, r.targetTags);
    SortSmall(LexLess, r.targetServiceAccounts);
  }

  // ----- One rule -----

  function Description(fingerprint: string): string {
    "ctrldb:test-isolation:lifetime-sha256=" + fingerprint + ";revoke=WF-TEST-01"
  }

  function NodeTag(fingerprint: string): string
    requires |fingerprint| == 64
  {
    "ctrldb-test-n-" + fingerprint[..49]
  }

  function Suffix(purpose: string): string {
    if purpose == IAP_SSH then IAP_SSH else MONGO_SUFFIX
  }

  function RuleName(runID: string, purpose: string): string {
    TEST_PREFIX + (runID + ("-" + Suffix(purpose)))
  }

  predicate TestTags(g: Grammar, tags: seq<string>, required: bool) {
    (required ==> tags != []) && (forall t :: t in tags ==> g.tag(t)) && Distinct(tags)
  }

  predicate ProductionCIDRs(g: Grammar, cidrs: seq<string>) {
    (forall v :: v in cidrs ==> CanonicalFour(g.parse(v))) && Distinct(cidrs)
  }

  predicate SourceDisjoint(g: Grammar, source: string, cidrs: seq<string>) {
    && CanonicalFour(g.parse(source))
    && forall v :: v in cidrs ==>
         CanonicalFour(g.parse(v)) && !PrefixesOverlap(g.parse(source).prefix, g.parse(v).prefix)
  }

  predicate PurposeShape(g: Grammar, r: FirewallRule, runID: string, fingerprint: string)
    requires |r.allowed| == 1 && |r.allowed[0].ports| == 1 && |fingerprint| == 64
  {
    if r.purpose == IAP_SSH then
      && r.identity.name == RuleName(runID, IAP_SSH) && r.allowed[0].ports[0] == SSH_PORT && |r.sourceTags| == 0
      && |r.sourceCIDRs| == 1 && r.sourceCIDRs[0] == IAP_SOURCE
      && r.targetTags == [NodeTag(fingerprint)] && r.lifetimeFingerprint == fingerprint
    else
      && r.purpose == INTERNAL_MONGO
      && r.identity.name == RuleName(runID, INTERNAL_MONGO) && r.allowed[0].ports[0] == MONGO_PORT
      && |r.sourceCIDRs| == 0 && r.lifetimeFingerprint == fingerprint
      && TestTags(g, r.sourceTags, true)
      && r.sourceTags == [NodeTag(fingerprint)] && r.targetTags == [NodeTag(fingerprint)]
  }

  predicate BoundToTestVPC(r: FirewallRule, projectID: string) {
    && ValidIdentity(r.identity) && ValidIdentity(r.network)
    && r.identity.service == COMPUTE && r.identity.kind == FIREWALLS && r.identity.scope.Global?
    && r.network.service == COMPUTE && r.network.kind == NETWORKS && r.network.scope.Global?
    && r.network.name == TEST_VPC && r.identity.project == r.network.project && r.identity.project == projectID
  }

  predicate FixedShape(r: FirewallRule) {
    && r.enabled && r.priority == PRIORITY && r.direction == INGRESS
    && |r.allowed| == 1 && |r.denied| == 0 && r.allowed[0].protocol == TCP && |r.allowed[0].ports| == 1
    && |r.destinationCIDRs| == 0 && |r.sourceServiceAccounts| == 0 && |r.targetServiceAccounts| == 0
    && !r.logEnabled && r.logMetadata == "" && |r.resourceManagerTags| == 0
  }

  /** The checks made of one rule, on its normal form. */
  predicate RuleAccepted(g: Grammar, raw: FirewallRule, cidrs: seq<string>, runID: string, projectID: string,
                         fingerprint: string)
  {
    var r := Normalize(raw);
    && g.patterns.runID(runID) && IsDigest(fingerprint) && r.runID == runID
    && r.description == Description(fingerprint)
    && BoundToTestVPC(r, projectID) && FixedShape(r)
    && TestTags(g, r.targetTags, true)
    && ProductionCIDRs(g, cidrs)
    && (forall source :: source in r.sourceCIDRs ==> SourceDisjoint(g, source, cidrs))
    && PurposeShape(g, r, runID, fingerprint)
  }

  function GlobalIdentity(project: string, kind: string, name: string): Identity {
    var i := Identity(project, COMPUTE, kind, Global, "global", "", name, "");
    i.(canonicalKey := CanonicalTargetKey(i))
  }

  lemma GlobalIdentityOnly(i: Identity)
    requires ValidIdentity(i) && i.service == COMPUTE && i.scope.Global? && i.kind != "routerNats"
    ensures i == GlobalIdentity(i.project, i.kind, i.name)
  {
  }

  /** The one rule a run may ask for under a purpose. */
  function RequiredRule(projectID: string, runID: string, fingerprint: string, purpose: string): FirewallRule
    requires |fingerprint| == 64
  {
    FirewallRule(
      GlobalIdentity(projectID, FIREWALLS, RuleName(runID, purpose)), Description(fingerprint),
      GlobalIdentity(projectID, NETWORKS, TEST_VPC), runID, purpose, true, PRIORITY, INGRESS,
      [Traffic(TCP, [if purpose == IAP_SSH then SSH_PORT else MONGO_PORT])], [], [],
      if purpose == IAP_SSH then [IAP_SOURCE] else [],
      if purpose == IAP_SSH then [] else [NodeTag(fingerprint)], [], [NodeTag(fingerprint)], [], false, "", map[],
      fingerprint)
  }

  /** What must hold of the run and of production for the purpose to be admitted at all. */
  predicate Admissible(g: Grammar, cidrs: seq<string>, runID: string, projectID: string, fingerprint: string,
                       purpose: string)
  {
    && (purpose == IAP_SSH || purpose == INTERNAL_MONGO)
    && g.patterns.runID(runID) && IsDigest(fingerprint)
    && ValidIdentity(GlobalIdentity(projectID, FIREWALLS, RuleName(runID, purpose)))
    && ValidIdentity(GlobalIdentity(projectID, NETWORKS, TEST_VPC))
    && g.tag(NodeTag(fingerprint)) && ProductionCIDRs(g, cidrs)
    && (purpose == IAP_SSH ==> SourceDisjoint(g, IAP_SOURCE, cidrs))
  }

  /** A rule passes exactly when it is, field for field, the rule its purpose requires. */
  lemma AcceptedIsRequired(g: Grammar, raw: FirewallRule, cidrs: seq<string>, runID: string, projectID: string,
                           fingerprint: string)
    ensures RuleAccepted(g, raw, cidrs, runID, projectID, fingerprint) <==>
            Admissible(g, cidrs, runID, projectID, fingerprint, raw.purpose) &&
            raw == RequiredRule(projectID, runID, fingerprint, raw.purpose)
  {
    hide Normalize, CanonicalTargetKey, RuleName, Description, NodeTag, SourceDisjoint, ProductionCIDRs;
    if RuleAccepted(g, raw, cidrs, runID, projectID, fingerprint) {
      var r := Normalize(raw);
      NormalizeSingle(raw);
      AcceptedFields(g, raw, cidrs, runID, projectID, fingerprint);
    }
    if Admissible(g, cidrs, runID, projectID, fingerprint, raw.purpose) &&
       raw == RequiredRule(projectID, runID, fingerprint, raw.purpose)
    {
      SingleIsNormal(raw);
      RequiredFields(g, cidrs, runID, projectID, fingerprint, raw);
    }
  }

  lemma AcceptedFields(g: Grammar, r: FirewallRule, cidrs: seq<string>, runID: string, projectID: string,
                       fingerprint: string)
    requires Normalize(r) == r && RuleAccepted(g, r, cidrs, runID, projectID, fingerprint)
    ensures Admissible(g, cidrs, runID, projectID, fingerprint, r.purpose)
    ensures r == RequiredRule(projectID, runID, fingerprint, r.purpose)
  {
    hide Normalize, CanonicalTargetKey, RuleName, Description, NodeTag, SourceDisjoint, ProductionCIDRs;
    GlobalIdentityOnly(r.identity);
    GlobalIdentityOnly(r.network);
    assert r.allowed == [r.allowed[0]] && r.allowed[0].ports == [r.allowed[0].ports[0]];
    assert r.purpose == IAP_SSH ==> r.sourceCIDRs == [IAP_SOURCE];
    assert r.targetTags[0] in r.targetTags;
  }

  lemma RequiredFields(g: Grammar, cidrs: seq<string>, runID: string, projectID: string, fingerprint: string,
                       r: FirewallRule)
    requires Admissible(g, cidrs, runID, projectID, fingerprint, r.purpose)
    requires r == RequiredRule(projectID, runID, fingerprint, r.purpose) && Normalize(r) == r
    ensures RuleAccepted(g, r, cidrs, runID, projectID, fingerprint)
  {
    hide Normalize, CanonicalTargetKey, RuleName, Description, NodeTag, SourceDisjoint, ProductionCIDRs;
  }
}
