/** The execution gate: contract, plan and evidence pin down one exact permission set. */
module ExecutionGate {
  import opened Common
  import opened Text
  import opened Collections
  import opened Contracts

  datatype PlanResource = PlanResource(scope: string, kind: string, name: string, fingerprint: string)
  datatype PlanPermission = PlanPermission(
    stepID: string, identity: ExecutionIdentity, permission: string, resource: PlanResource, granted: bool)

  datatype PlanStep = PlanStep(id: string, shape: StepShape, targets: seq<PlanResource>)

  datatype ExposureControls = ExposureControls(
    profile: string, internetWide: bool, simulation: string, tls: string, targets: seq<PlanResource>)

  /** `recoveryAssets` lists what each asset protects. */
  datatype Plan = Plan(
    workflowID: string, projectID: string, approvalClass: nat, resources: seq<PlanResource>, steps: seq<PlanStep>,
    permissions: seq<PlanPermission>, rollbackBoundary: string, pointOfNoReturn: string, trigger: Option<Trigger>,
    recoveryAssets: seq<seq<PlanResource>>, exposure: string, controls: Option<ExposureControls>)

  datatype Evidence = Evidence(resources: seq<PlanResource>, permissions: seq<PlanPermission>)

  datatype BlockerKind = ContractBlocker | RecoveryBlocker | PermissionBlocker | ResourceBlocker | OtherBlocker
  datatype Blocker = Blocker(kind: BlockerKind, id: string)

  /** Patterns and closed enumerations, left abstract, and the checks of an
      exposure that are not about its targets: transport, then everything else. */
  datatype Names = Names(
    permission: string -> bool, scope: (string, string) -> bool, stepFields: PlanStep -> bool,
    exposureTLS: (string, string) -> bool, exposureFields: Plan -> bool)

  const READ: nat := 0
  const SECURITY_SENSITIVE: nat := 3
  const MAX_EXPOSURE_TARGETS: nat := 64
  const NO_EXPOSURE := "none"

  // ----- Keys -----

  const NUL := "\0"

  predicate NoNul(s: string) { forall i :: 0 <= i < |s| ==> s[i] != '\0' }

  function ResourceKey(r: PlanResource): string {
    r.scope + (NUL + (r.kind + (NUL + (r.name + (NUL + r.fingerprint)))))
  }

  function StableKey(r: PlanResource): string { r.scope + (NUL + (r.kind + (NUL + r.name))) }

  /** What a permission is apart from its verdict. */
  datatype Tuple = Tuple(stepID: string, identity: ExecutionIdentity, permission: string, resource: PlanResource)

  function TupleOf(p: PlanPermission): Tuple { Tuple(p.stepID, p.identity, p.permission, p.resource) }

  function TupleKey(t: Tuple): string {
    t.stepID + (NUL + (t.identity.Text() + (NUL + (t.permission + (NUL + ResourceKey(t.resource))))))
  }

  function PermissionKey(p: PlanPermission): string { TupleKey(TupleOf(p)) }

  /** The parts before the last are free of the separator. */
  predicate PlainResource(r: PlanResource) { NoNul(r.scope) && NoNul(r.kind) && NoNul(r.name) }

  predicate PlainTuple(t: Tuple) {
    NoNul(t.stepID) && t.identity.Known() && NoNul(t.permission) && PlainResource(t.resource)
  }

  lemma FirstPart(a: string, b: string, x: string, y: string)
    requires NoNul(a) && NoNul(b) && a + (NUL + x) == b + (NUL + y)
    ensures a == b && x == y
  {
    var p, q := a + (NUL + x), b + (NUL + y);
    assert p[|a|] == '\0' && q[|b|] == '\0';
    assert forall i :: 0 <= i < |a| ==> p[i] == a[i];
    assert forall i :: 0 <= i < |b| ==> q[i] == b[i];
    assert a == p[..|a|] && b == q[..|b|] && x == p[|a| + 1..] && y == q[|b| + 1..];
  }

  lemma ResourceKeyInjective(a: PlanResource, b: PlanResource)
    requires PlainResource(a) && PlainResource(b) && ResourceKey(a) == ResourceKey(b)
    ensures a == b
  {
    FirstPart(a.scope, b.scope, a.kind + (NUL + (a.name + (NUL + a.fingerprint))),
              b.kind + (NUL + (b.name + (NUL + b.fingerprint))));
    FirstPart(a.kind, b.kind, a.name + (NUL + a.fingerprint), b.name + (NUL + b.fingerprint));
    FirstPart(a.name, b.name, a.fingerprint, b.fingerprint);
  }

  /** A joined key stands for one tuple, whatever the fingerprint contains. */
  lemma TupleKeyInjective(a: Tuple, b: Tuple)
    requires PlainTuple(a) && PlainTuple(b) && TupleKey(a) == TupleKey(b)
    ensures a == b
  {
    var ra, rb := ResourceKey(a.resource), ResourceKey(b.resource);
    hide ExecutionIdentity.Text;
    KnownTexts(a.identity, b.identity);
    KnownTexts(b.identity, a.identity);
    FirstPart(a.stepID, b.stepID, a.identity.Text() + (NUL + (a.permission + (NUL + ra))),
              b.identity.Text() + (NUL + (b.permission + (NUL + rb))));
    FirstPart(a.identity.Text(), b.identity.Text(), a.permission + (NUL + ra), b.permission + (NUL + rb));
    FirstPart(a.permission, b.permission, ra, rb);
    ResourceKeyInjective(a.resource, b.resource);
  }

  // ----- The structure of a plan -----

  predicate ResourceOk(n: Names, project: string, r: PlanResource) {
    IsStepID(r.kind) && IsStepID(r.name) && r.fingerprint != "" && n.scope(r.scope, project) && NoNul(r.scope)
  }

  ghost predicate ResourcesValid(n: Names, project: string, resources: seq<PlanResource>) {
    (forall r :: r in resources ==> ResourceOk(n, project, r)) && DistinctBy(StableKey, resources)
  }

  ghost predicate StepValid(n: Names, s: PlanStep, resources: seq<PlanResource>) {
    && IsStepID(s.id) && n.stepFields(s) && s.shape.identity.Known() && s.targets != []
    && (forall t :: t in s.targets ==> t in resources) && DistinctBy(ResourceKey, s.targets)
  }

  function StepID(s: PlanStep): string { s.id }

  ghost predicate StepsValid(n: Names, steps: seq<PlanStep>, pointOfNoReturn: string, resources: seq<PlanResource>) {
    && steps != [] && (forall s :: s in steps ==> StepValid(n, s, resources)) && DistinctBy(StepID, steps)
    && (forall r :: r in resources ==> exists s :: s in steps && r in s.targets)
    && (pointOfNoReturn != "" ==> exists s :: s in steps && s.id == pointOfNoReturn)
  }

  ghost predicate PermissionValid(n: Names, p: PlanPermission, steps: seq<PlanStep>, resources: seq<PlanResource>) {
    && (exists s :: s in steps && s.id == p.stepID && s.shape.identity == p.identity)
    && p.identity.Known() && n.permission(p.permission) && NoNul(p.permission)
    && p.resource in resources
  }

  ghost predicate PermissionsValid(n: Names, permissions: seq<PlanPermission>, approvalClass: nat, steps: seq<PlanStep>,
                                   resources: seq<PlanResource>)
  {
    && (approvalClass != READ ==> permissions != [])
    && (forall p :: p in permissions ==> PermissionValid(n, p, steps, resources))
    && DistinctBy(PermissionKey, permissions)
    && (approvalClass != READ ==>
          (forall s :: s in steps ==> exists p :: p in permissions && p.stepID == s.id) &&
          (forall r :: r in resources ==> exists p :: p in permissions && p.resource == r))
  }

  /** Every target carries the key of a plan resource, each key once. */
  ghost predicate ExposureTargetsValid(targets: seq<PlanResource>, resources: seq<PlanResource>) {
    (forall t :: t in targets ==> ResourceKey(t) in KeysOf(resources)) && DistinctBy(ResourceKey, targets)
  }

  ghost predicate ExposureValid(n: Names, plan: Plan) {
    if plan.exposure == NO_EXPOSURE then plan.controls.None?
    else
      && plan.approvalClass >= SECURITY_SENSITIVE && plan.controls.Some?
      && 0 < |plan.controls.value.targets| <= MAX_EXPOSURE_TARGETS
      && ExposureTargetsValid(plan.controls.value.targets, plan.resources)
      && n.exposureTLS(plan.exposure, plan.controls.value.tls) && n.exposureFields(plan)
  }

  ghost predicate PlanValid(n: Names, plan: Plan) {
    && ResourcesValid(n, plan.projectID, plan.resources)
    && StepsValid(n, plan.steps, plan.pointOfNoReturn, plan.resources)
    && PermissionsValid(n, plan.permissions, plan.approvalClass, plan.steps, plan.resources)
    && ExposureValid(n, plan)
  }

  lemma ValidResourceIsPlain(n: Names, project: string, r: PlanResource)
    requires ResourceOk(n, project, r)
    ensures PlainResource(r)
  {
  }

  method ValidateResources(n: Names, project: string, resources: seq<PlanResource>) returns (ok: bool)
    ensures ok <==> ResourcesValid(n, project, resources)
  {
    hide ResourceOk, StableKey;
    var seen: set<string> := {};
    for i := 0 to |resources|
      invariant forall k :: 0 <= k < i ==> ResourceOk(n, project, resources[k])
      invariant forall j, k :: 0 <= j < k < i ==> StableKey(resources[j]) != StableKey(resources[k])
      invariant forall x :: x in seen <==> exists k :: 0 <= k < i && StableKey(resources[k]) == x
    {
      var r := resources[i];
      assert r in resources;
      if !ResourceOk(n, project, r) {
        return false;
      }
      if StableKey(r) in seen {
        return false;
      }
      seen := seen + {StableKey(r)};
    }
    ok := true;
  }

  /** `byKey` finds a resource exactly under its own full key. */
  ghost predicate Indexed(resources: seq<PlanResource>, byKey: map<string, PlanResource>) {
    && (forall r :: r in resources ==> ResourceKey(r) in byKey && byKey[ResourceKey(r)] == r)
    && (forall k :: k in byKey ==> exists r :: r in resources && ResourceKey(r) == k)
  }

  method IndexResources(resources: seq<PlanResource>) returns (byKey: map<string, PlanResource>)
    requires forall r :: r in resources ==> PlainResource(r)
    ensures Indexed(resources, byKey)
  {
    hide ResourceKey, PlainResource;
    byKey := map[];
    for i := 0 to |resources|
      invariant forall k :: 0 <= k < i ==> ResourceKey(resources[k]) in byKey && byKey[ResourceKey(resources[k])] == resources[k]
      invariant forall k :: k in byKey ==> exists j :: 0 <= j < i && ResourceKey(resources[j]) == k
    {
      ghost var before := byKey;
      byKey := byKey[ResourceKey(resources[i]) := resources[i]];
      SameKeySameResource(resources, i);
      forall k | k in byKey ensures exists j :: 0 <= j < i + 1 && ResourceKey(resources[j]) == k {
        if k in before {
          var j :| 0 <= j < i && ResourceKey(resources[j]) == k;
        } else {
          assert ResourceKey(resources[i]) == k;
        }
      }
    }
    forall k | k in byKey ensures exists r :: r in resources && ResourceKey(r) == k {
      var j :| 0 <= j < |resources| && ResourceKey(resources[j]) == k;
      assert resources[j] in resources;
    }
  }

  lemma SameKeySameResource(resources: seq<PlanResource>, i: nat)
    requires i < |resources| && forall r :: r in resources ==> PlainResource(r)
    ensures forall k :: 0 <= k <= i && ResourceKey(resources[k]) == ResourceKey(resources[i]) ==> resources[k] == resources[i]
  {
    hide PlainResource, ResourceKey;
    forall k | 0 <= k <= i && ResourceKey(resources[k]) == ResourceKey(resources[i]) ensures resources[k] == resources[i] {
      assert resources[k] in resources && resources[i] in resources;
      ResourceKeyInjective(resources[k], resources[i]);
    }
  }

  ghost function KeysOf(resources: seq<PlanResource>): set<string> { set r | r in resources :: ResourceKey(r) }

  lemma {:induction false} KeysCounted(resources: seq<PlanResource>)
    requires DistinctBy(ResourceKey, resources)
    ensures |KeysOf(resources)| == |resources|
  {
    hide ResourceKey;
    if resources != [] {
      var last := |resources| - 1;
      var rest := resources[..last];
      KeysCounted(rest);
      assert resources == rest + [resources[last]];
      assert ResourceKey(resources[last]) !in KeysOf(rest);
      assert KeysOf(resources) == KeysOf(rest) + {ResourceKey(resources[last])};
    }
  }

  lemma FullKeysDistinct(n: Names, project: string, resources: seq<PlanResource>)
    requires ResourcesValid(n, project, resources)
    ensures DistinctBy(ResourceKey, resources)
  {
    hide ResourceKey, StableKey;
    DistinctByIsDistinct(StableKey, resources);
    forall i, j | 0 <= i < j < |resources| ensures ResourceKey(resources[i]) != ResourceKey(resources[j]) {
      assert resources[i] in resources && resources[j] in resources;
      if ResourceKey(resources[i]) == ResourceKey(resources[j]) {
        ResourceKeyInjective(resources[i], resources[j]);
      }
    }
  }

  /** The target loop of one step. */
  method CheckStepTargets(targets: seq<PlanResource>, resources: seq<PlanResource>, byKey: map<string, PlanResource>)
    returns (ok: bool, keys: set<string>)
    requires Indexed(resources, byKey)
    ensures ok <==> (forall t :: t in targets ==> t in resources) && DistinctBy(ResourceKey, targets)
    ensures ok ==> keys == KeysOf(targets)
  {
    hide ResourceKey, Indexed;
    keys := {};
    for i := 0 to |targets|
      invariant forall k :: 0 <= k < i ==> targets[k] in resources
      invariant forall j, k :: 0 <= j < k < i ==> ResourceKey(targets[j]) != ResourceKey(targets[k])
      invariant forall x :: x in keys <==> exists k :: 0 <= k < i && ResourceKey(targets[k]) == x
    {
      var target := targets[i];
      var key := ResourceKey(target);
      assert target in targets;
      IndexedMember(resources, byKey, target);
      if key !in byKey || target != byKey[key] {
        return false, {};
      }
      if key in keys {
        return false, {};
      }
      keys := keys + {key};
    }
    forall x ensures x in keys <==> x in KeysOf(targets) {
      if x in keys {
        var k :| 0 <= k < |targets| && ResourceKey(targets[k]) == x;
        assert targets[k] in targets;
      }
      if x in KeysOf(targets) {
        var t :| t in targets && ResourceKey(t) == x;
        var k :| 0 <= k < |targets| && targets[k] == t;
      }
    }
    ok := true;
  }

  lemma IndexedMember(resources: seq<PlanResource>, byKey: map<string, PlanResource>, r: PlanResource)
    requires Indexed(resources, byKey)
    ensures ResourceKey(r) in byKey && byKey[ResourceKey(r)] == r <==> r in resources
  {
    hide ResourceKey;
    if ResourceKey(r) in byKey && byKey[ResourceKey(r)] == r {
      var s :| s in resources && ResourceKey(s) == ResourceKey(r);
      assert byKey[ResourceKey(s)] == s;
    }
  }

  /** Keys gathered from the targets of the first steps. */
  ghost predicate Covers(steps: seq<PlanStep>, i: nat, covered: set<string>) {
    i <= |steps| &&
    forall x :: x in covered <==> exists k, t :: 0 <= k < i && t in steps[k].targets && ResourceKey(t) == x
  }

  lemma CoverOneMore(steps: seq<PlanStep>, i: nat, covered: set<string>)
    requires i < |steps| && Covers(steps, i, covered)
    ensures Covers(steps, i + 1, covered + KeysOf(steps[i].targets))
  {
    hide ResourceKey;
    var more := covered + KeysOf(steps[i].targets);
    forall x ensures x in more <==> exists k, t :: 0 <= k < i + 1 && t in steps[k].targets && ResourceKey(t) == x {
      if x in covered {
        var k, t :| 0 <= k < i && t in steps[k].targets && ResourceKey(t) == x;
      }
      if x in KeysOf(steps[i].targets) {
        var t :| t in steps[i].targets && ResourceKey(t) == x;
      }
    }
  }

  /** Comparing sizes decides whether every resource is some step's target. */
  lemma CoverageCounted(n: Names, project: string, steps: seq<PlanStep>, resources: seq<PlanResource>, covered: set<string>)
    requires ResourcesValid(n, project, resources) && Covers(steps, |steps|, covered)
    requires forall s, t :: s in steps && t in s.targets ==> t in resources
    ensures |covered| == |resources| <==> forall r :: r in resources ==> exists s :: s in steps && r in s.targets
  {
    hide ResourceKey, ResourceOk;
    FullKeysDistinct(n, project, resources);
    KeysCounted(resources);
    forall x | x in covered ensures x in KeysOf(resources) {
      var k, t :| 0 <= k < |steps| && t in steps[k].targets && ResourceKey(t) == x;
      assert steps[k] in steps && t in resources;
    }
    if |covered| == |resources| {
      SubsetOfSameSize(covered, KeysOf(resources));
      forall r | r in resources ensures exists s :: s in steps && r in s.targets {
        assert ResourceKey(r) in covered;
        var k, t :| 0 <= k < |steps| && t in steps[k].targets && ResourceKey(t) == ResourceKey(r);
        assert steps[k] in steps && t in resources;
        DistinctByIsDistinct(ResourceKey, resources);
        assert t == r;
      }
    }
    if forall r :: r in resources ==> exists s :: s in steps && r in s.targets {
      forall x | x in KeysOf(resources) ensures x in covered {
        var r :| r in resources && ResourceKey(r) == x;
        var s :| s in steps && r in s.targets;
        var k :| 0 <= k < |steps| && steps[k] == s;
      }
      assert covered == KeysOf(resources);
    }
  }

  /** One step on its own. */
  method CheckStepValid(n: Names, step: PlanStep, resources: seq<PlanResource>, byKey: map<string, PlanResource>)
    returns (ok: bool, keys: set<string>)
    requires Indexed(resources, byKey)
    ensures ok <==> StepValid(n, step, resources)
    ensures ok ==> keys == KeysOf(step.targets)
  {
    hide ResourceKey, Indexed, IsStepID, DistinctBy;
    if !IsStepID(step.id) {
      return false, {};
    }
    if !n.stepFields(step) || !step.shape.identity.Known() {
      return false, {};
    }
    if |step.targets| == 0 {
      return false, {};
    }
    ok, keys := CheckStepTargets(step.targets, resources, byKey);
  }

  method ValidateSteps(n: Names, project: string, steps: seq<PlanStep>, pointOfNoReturn: string,
                       resources: seq<PlanResource>) returns (ok: bool)
    requires ResourcesValid(n, project, resources)
    ensures ok <==> StepsValid(n, steps, pointOfNoReturn, resources)
  {
    hide ResourcesValid, Indexed, Covers, StepValid, Seen, StepsValid, KeysOf, PlainResource;
    StepsConclude(n, project, steps, pointOfNoReturn, resources, {}, {});
    if |steps| == 0 {
      return false;
    }
    AllPlain(n, project, resources);
    var byKey := IndexResources(resources);
    var seen: set<string> := {};
    var covered: set<string> := {};
    CoverStart(steps);
    SeenStart(StepID, steps);
    for i := 0 to |steps|
      invariant forall k :: 0 <= k < i ==> StepValid(n, steps[k], resources)
      invariant Seen(StepID, steps, i, seen) && Covers(steps, i, covered)
    {
      var step := steps[i];
      assert step in steps;
      SeeOneMore(StepID, steps, i, seen);
      if step.id in seen {
        return false;
      }
      seen := seen + {step.id};
      var stepOk, keys := CheckStepValid(n, step, resources, byKey);
      if !stepOk {
        return false;
      }
      CoverOneMore(steps, i, covered);
      covered := covered + keys;
    }
    StepsConclude(n, project, steps, pointOfNoReturn, resources, seen, covered);
    if |covered| != |resources| {
      return false;
    }
    return pointOfNoReturn == "" || pointOfNoReturn in seen;
  }

  /** What single steps, repeats and the closing comparisons say of the whole list. */
  lemma StepsConclude(n: Names, project: string, steps: seq<PlanStep>, pointOfNoReturn: string,
                      resources: seq<PlanResource>, seen: set<string>, covered: set<string>)
    requires ResourcesValid(n, project, resources)
    ensures StepsValid(n, steps, pointOfNoReturn, resources) ==>
              |steps| != 0 && DistinctBy(StepID, steps) && forall s :: s in steps ==> StepValid(n, s, resources)
    ensures (Seen(StepID, steps, |steps|, seen) && Covers(steps, |steps|, covered) && |steps| != 0 &&
             (forall k :: 0 <= k < |steps| ==> StepValid(n, steps[k], resources))) ==>
              (StepsValid(n, steps, pointOfNoReturn, resources) <==>
                 |covered| == |resources| && (pointOfNoReturn == "" || pointOfNoReturn in seen))
  {
    hide ResourcesValid, Seen, Covers, IsStepID;
    if Seen(StepID, steps, |steps|, seen) && Covers(steps, |steps|, covered) &&
       forall k :: 0 <= k < |steps| ==> StepValid(n, steps[k], resources)
    {
      CoverageCounted(n, project, steps, resources, covered);
      SeenAll(StepID, steps, seen);
      SeenIDs(steps, seen, pointOfNoReturn);
    }
  }

  lemma AllPlain(n: Names, project: string, resources: seq<PlanResource>)
    requires ResourcesValid(n, project, resources)
    ensures forall r :: r in resources ==> PlainResource(r)
  {
  }

  lemma CoverStart(steps: seq<PlanStep>)
    ensures Covers(steps, 0, {})
  {
  }

  lemma SeenIDs(steps: seq<PlanStep>, seen: set<string>, id: string)
    requires Seen(StepID, steps, |steps|, seen)
    ensures id in seen <==> exists s :: s in steps && s.id == id
  {
    if id in seen {
      var k :| 0 <= k < |steps| && StepID(steps[k]) == id;
      assert steps[k] in steps;
    }
    if s :| s in steps && s.id == id {
      var k :| 0 <= k < |steps| && steps[k] == s;
      assert StepID(steps[k]) == id;
    }
  }

  method IndexSteps(steps: seq<PlanStep>) returns (byID: map<string, PlanStep>)
    requires DistinctBy(StepID, steps)
    ensures Filed(StepID, steps, |steps|, byID)
  {
    hide Filed, DistinctBy;
    byID := map[];
    FileStart(StepID, steps);
    for i := 0 to |steps|
      invariant Filed(StepID, steps, i, byID)
    {
      NotFiledYet(StepID, steps, i, byID);
      FileOneMore(StepID, steps, i, byID);
      byID := byID[steps[i].id := steps[i]];
    }
  }

  lemma NamedStep(steps: seq<PlanStep>, byID: map<string, PlanStep>, id: string, identity: ExecutionIdentity)
    requires Filed(StepID, steps, |steps|, byID)
    ensures id in byID && byID[id].shape.identity == identity <==>
            exists s :: s in steps && s.id == id && s.shape.identity == identity
  {
    if id in byID {
      FiledEntry(StepID, steps, |steps|, byID, id);
    }
    if s :| s in steps && s.id == id && s.shape.identity == identity {
      var k :| 0 <= k < |steps| && steps[k] == s;
      assert StepID(steps[k]) == id;
    }
  }

  /** What the permission loop has gathered. */
  ghost predicate Gathered(permissions: seq<PlanPermission>, i: nat, seen: set<string>, steps: set<string>,
                           identities: set<ExecutionIdentity>, resources: set<string>)
  {
    && i <= |permissions|
    && (forall x :: x in seen <==> exists k :: 0 <= k < i && PermissionKey(permissions[k]) == x)
    && (forall x :: x in steps <==> exists k :: 0 <= k < i && permissions[k].stepID == x)
    && (forall x :: x in identities <==> exists k :: 0 <= k < i && permissions[k].identity == x)
    && (forall x :: x in resources <==> exists k :: 0 <= k < i && ResourceKey(permissions[k].resource) == x)
  }

  lemma GatherStart(permissions: seq<PlanPermission>)
    ensures Gathered(permissions, 0, {}, {}, {}, {})
  {
  }

  lemma GatherOneMore(permissions: seq<PlanPermission>, i: nat, seen: set<string>, steps: set<string>,
                      identities: set<ExecutionIdentity>, resources: set<string>)
    requires i < |permissions| && Gathered(permissions, i, seen, steps, identities, resources)
    ensures var p := permissions[i];
            Gathered(permissions, i + 1, seen + {PermissionKey(p)}, steps + {p.stepID}, identities + {p.identity},
                     resources + {ResourceKey(p.resource)})
  {
    hide PermissionKey, ResourceKey;
  }

  /** One permission against the step it names and the resources of the plan. */
  method CheckPermission(n: Names, p: PlanPermission, ghost steps: seq<PlanStep>, ghost resources: seq<PlanResource>,
                         byID: map<string, PlanStep>, byKey: map<string, PlanResource>) returns (ok: bool)
    requires Filed(StepID, steps, |steps|, byID) && Indexed(resources, byKey)
    ensures ok <==> PermissionValid(n, p, steps, resources)
  {
    hide ResourceKey, Indexed, Filed, NoNul;
    NamedStep(steps, byID, p.stepID, p.identity);
    IndexedMember(resources, byKey, p.resource);
    if p.stepID !in byID {
      return false;
    }
    if !p.identity.Known() {
      return false;
    }
    if p.identity != byID[p.stepID].shape.identity {
      return false;
    }
    if !n.permission(p.permission) || !NoNul(p.permission) {
      return false;
    }
    var resourceKey := ResourceKey(p.resource);
    return resourceKey in byKey && p.resource == byKey[resourceKey];
  }

  method ValidatePermissions(n: Names, project: string, permissions: seq<PlanPermission>, approvalClass: nat,
                             steps: seq<PlanStep>, resources: seq<PlanResource>) returns (ok: bool)
    requires ResourcesValid(n, project, resources) && DistinctBy(StepID, steps)
    ensures ok <==> PermissionsValid(n, permissions, approvalClass, steps, resources)
  {
    hide ResourceKey, Indexed, ResourceOk, StableKey, Filed, PermissionKey, Gathered, PermissionValid, PlainResource;
    if approvalClass != READ && |permissions| == 0 {
      return false;
    }
    AllPlain(n, project, resources);
    var byID := IndexSteps(steps);
    var byKey := IndexResources(resources);
    var seen: set<string>, coveredSteps: set<string>, coveredIdentities: set<ExecutionIdentity>, coveredResources: set<string> :=
      {}, {}, {}, {};
    GatherStart(permissions);
    for i := 0 to |permissions|
      invariant forall k :: 0 <= k < i ==> PermissionValid(n, permissions[k], steps, resources)
      invariant forall j, k :: 0 <= j < k < i ==> PermissionKey(permissions[j]) != PermissionKey(permissions[k])
      invariant Gathered(permissions, i, seen, coveredSteps, coveredIdentities, coveredResources)
    {
      var p := permissions[i];
      assert p in permissions;
      var valid := CheckPermission(n, p, steps, resources, byID, byKey);
      if !valid {
        return false;
      }
      var key := PermissionKey(p);
      GatherRepeat(permissions, i, seen, coveredSteps, coveredIdentities, coveredResources);
      if key in seen {
        return false;
      }
      GatherOneMore(permissions, i, seen, coveredSteps, coveredIdentities, coveredResources);
      seen := seen + {key};
      coveredSteps := coveredSteps + {p.stepID};
      coveredIdentities := coveredIdentities + {p.identity};
      coveredResources := coveredResources + {ResourceKey(p.resource)};
    }
    assert forall p :: p in permissions ==> PermissionValid(n, p, steps, resources);
    if approvalClass != READ {
      GatheredCovers(n, project, permissions, steps, resources, seen, coveredSteps, coveredIdentities, coveredResources);
      ok := CoveredBy(steps, resources, coveredSteps, coveredIdentities, coveredResources);
      return;
    }
    ok := true;
  }

  lemma GatherRepeat(permissions: seq<PlanPermission>, i: nat, seen: set<string>, steps: set<string>,
                     identities: set<ExecutionIdentity>, resources: set<string>)
    requires i < |permissions| && Gathered(permissions, i, seen, steps, identities, resources)
    ensures PermissionKey(permissions[i]) in seen <==>
            exists k :: 0 <= k < i && PermissionKey(permissions[k]) == PermissionKey(permissions[i])
  {
  }

  /** The closing coverage loops of a mutating plan. */
  method CoveredBy(steps: seq<PlanStep>, resources: seq<PlanResource>, coveredSteps: set<string>,
                   coveredIdentities: set<ExecutionIdentity>, coveredResources: set<string>) returns (ok: bool)
    ensures ok <==> (forall s :: s in steps ==> s.id in coveredSteps && s.shape.identity in coveredIdentities) &&
                    (forall r :: r in resources ==> ResourceKey(r) in coveredResources)
  {
    hide ResourceKey;
    for i := 0 to |steps|
      invariant forall k :: 0 <= k < i ==> steps[k].id in coveredSteps && steps[k].shape.identity in coveredIdentities
    {
      assert steps[i] in steps;
      if steps[i].id !in coveredSteps {
        return false;
      }
      if steps[i].shape.identity !in coveredIdentities {
        return false;
      }
    }
    for i := 0 to |resources|
      invariant forall k :: 0 <= k < i ==> ResourceKey(resources[k]) in coveredResources
    {
      assert resources[i] in resources;
      if ResourceKey(resources[i]) !in coveredResources {
        return false;
      }
    }
    ok := true;
  }

  /** Covering every step covers its identity, and covering a key covers its resource. */
  lemma GatheredCovers(n: Names, project: string, permissions: seq<PlanPermission>, steps: seq<PlanStep>,
                       resources: seq<PlanResource>, seen: set<string>, coveredSteps: set<string>,
                       coveredIdentities: set<ExecutionIdentity>, coveredResources: set<string>)
    requires ResourcesValid(n, project, resources) && DistinctBy(StepID, steps)
    requires Gathered(permissions, |permissions|, seen, coveredSteps, coveredIdentities, coveredResources)
    requires forall p :: p in permissions ==> PermissionValid(n, p, steps, resources)
    ensures (forall s :: s in steps ==> s.id in coveredSteps && s.shape.identity in coveredIdentities) <==>
            forall s :: s in steps ==> exists p :: p in permissions && p.stepID == s.id
    ensures (forall r :: r in resources ==> ResourceKey(r) in coveredResources) <==>
            forall r :: r in resources ==> exists p :: p in permissions && p.resource == r
  {
    hide ResourceKey, ResourceOk, PermissionKey, Gathered;
    forall s | s in steps
      ensures s.id in coveredSteps && s.shape.identity in coveredIdentities <==> exists p :: p in permissions && p.stepID == s.id
    {
      StepCovered(n, permissions, steps, resources, seen, coveredSteps, coveredIdentities, coveredResources, s);
    }
    forall r | r in resources ensures ResourceKey(r) in coveredResources <==> exists p :: p in permissions && p.resource == r {
      ResourceCovered(n, project, permissions, steps, resources, seen, coveredSteps, coveredIdentities, coveredResources, r);
    }
  }

  lemma StepCovered(n: Names, permissions: seq<PlanPermission>, steps: seq<PlanStep>, resources: seq<PlanResource>,
                    seen: set<string>, coveredSteps: set<string>, coveredIdentities: set<ExecutionIdentity>,
                    coveredResources: set<string>, s: PlanStep)
    requires DistinctBy(StepID, steps) && s in steps
    requires Gathered(permissions, |permissions|, seen, coveredSteps, coveredIdentities, coveredResources)
    requires forall p :: p in permissions ==> PermissionValid(n, p, steps, resources)
    ensures s.id in coveredSteps && s.shape.identity in coveredIdentities <==> exists p :: p in permissions && p.stepID == s.id
  {
    hide ResourceKey, PermissionKey, NoNul;
    DistinctByIsDistinct(StepID, steps);
    if s.id in coveredSteps {
      var k :| 0 <= k < |permissions| && permissions[k].stepID == s.id;
      assert permissions[k] in permissions;
    }
    if p :| p in permissions && p.stepID == s.id {
      var k :| 0 <= k < |permissions| && permissions[k] == p;
      var named :| named in steps && named.id == p.stepID && named.shape.identity == p.identity;
      assert StepID(named) == StepID(s);
      assert permissions[k].identity == s.shape.identity;
    }
  }

  lemma ResourceCovered(n: Names, project: string, permissions: seq<PlanPermission>, steps: seq<PlanStep>,
                        resources: seq<PlanResource>, seen: set<string>, coveredSteps: set<string>,
                        coveredIdentities: set<ExecutionIdentity>, coveredResources: set<string>, r: PlanResource)
    requires ResourcesValid(n, project, resources) && r in resources
    requires Gathered(permissions, |permissions|, seen, coveredSteps, coveredIdentities, coveredResources)
    requires forall p :: p in permissions ==> PermissionValid(n, p, steps, resources)
    ensures ResourceKey(r) in coveredResources <==> exists p :: p in permissions && p.resource == r
  {
    hide ResourceKey, PermissionKey, NoNul, ResourcesValid;
    FullKeysDistinct(n, project, resources);
    DistinctByIsDistinct(ResourceKey, resources);
    if ResourceKey(r) in coveredResources {
      var k :| 0 <= k < |permissions| && ResourceKey(permissions[k].resource) == ResourceKey(r);
      assert permissions[k] in permissions;
    }
    if p :| p in permissions && p.resource == r {
      var k :| 0 <= k < |permissions| && permissions[k] == p;
      assert ResourceKey(permissions[k].resource) == ResourceKey(r);
    }
  }

  // ----- Exposure controls -----

  method ValidateExposureControls(n: Names, plan: Plan) returns (ok: bool)
    ensures ok <==> ExposureValid(n, plan)
  {
    hide ExposureTargetsValid;
    if plan.exposure == NO_EXPOSURE {
      return plan.controls.None?;
    }
    if plan.approvalClass < SECURITY_SENSITIVE || plan.controls.None? {
      return false;
    }
    var targets := plan.controls.value.targets;
    if |targets| == 0 || |targets| > MAX_EXPOSURE_TARGETS {
      return false;
    }
    var targetsOk := CheckExposureTargets(targets, plan.resources);
    return targetsOk && n.exposureTLS(plan.exposure, plan.controls.value.tls) && n.exposureFields(plan);
  }

  /** The keys of the plan's resources. */
  method ResourceKeys(resources: seq<PlanResource>) returns (keys: set<string>)
    ensures keys == KeysOf(resources)
  {
    hide ResourceKey;
    keys := {};
    for i := 0 to |resources|
      invariant keys == KeysOf(resources[..i])
    {
      assert resources[..i + 1] == resources[..i] + [resources[i]];
      keys := keys + {ResourceKey(resources[i])};
    }
    assert resources[..|resources|] == resources;
  }

  /** The target loop: by key only, not by value as for steps and permissions. */
  method CheckExposureTargets(targets: seq<PlanResource>, resources: seq<PlanResource>) returns (ok: bool)
    ensures ok <==> ExposureTargetsValid(targets, resources)
  {
    hide ResourceKey, Seen;
    var planResources := ResourceKeys(resources);
    var seen: set<string> := {};
    SeenStart(ResourceKey, targets);
    for i := 0 to |targets|
      invariant forall k :: 0 <= k < i ==> ResourceKey(targets[k]) in planResources
      invariant Seen(ResourceKey, targets, i, seen)
    {
      var key := ResourceKey(targets[i]);
      assert targets[i] in targets;
      if key !in planResources {
        return false;
      }
      SeeOneMore(ResourceKey, targets, i, seen);
      if key in seen {
        return false;
      }
      seen := seen + {key};
    }
    SeenAll(ResourceKey, targets, seen);
    ok := true;
  }
}
