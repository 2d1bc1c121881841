/** Resource identities and the exact-set checks over locks and permissions. */
module Evidence {
  import opened Common
  import opened Text
  import opened Collections

  // ----- Identities -----

  datatype Scope = Global | Region | Zone

  datatype Identity = Identity(
    project: string, service: string, kind: string, scope: Scope, location: string, parentName: string,
    name: string, canonicalKey: string)

  /** What every identity pattern of the source excludes; the patterns allow less. */
  predicate Plain(s: string) {
    s != "" && forall i :: 0 <= i < |s| ==> s[i] != '|' && s[i] != '=' && s[i] != '/'
  }

  predicate NestedNAT(i: Identity) {
    i.service == "compute.googleapis.com" && i.kind == "routerNats"
  }

  predicate WellFormed(i: Identity) {
    && Plain(i.project) && Plain(i.service) && Plain(i.kind) && Plain(i.name) && Plain(i.location)
    && (i.scope.Global? ==> i.location == "global")
    && (if NestedNAT(i) then Plain(i.parentName) else i.parentName == "")
  }

  function ScopePath(i: Identity): string {
    match i.scope
    case Global => "global"
    case Region => "regions/" + i.location
    case Zone => "zones/" + i.location
  }

  function ParentPath(i: Identity): string {
    if NestedNAT(i) then "|parent=" + i.parentName else ""
  }

  const KEY_PREFIX := "ctrldb-target-key:v1|"

  function CanonicalTargetKey(i: Identity): string {
    KEY_PREFIX + (i.project + "|" + (i.service + "|" + (ScopePath(i) + (ParentPath(i) + ("|" + (i.kind + "|" + i.name))))))
  }

  predicate ValidIdentity(i: Identity) {
    WellFormed(i) && i.canonicalKey == CanonicalTargetKey(i)
  }

  predicate NoBar(s: string) {
    forall i :: 0 <= i < |s| ==> s[i] != '|'
  }

  /** Bar-free heads before a bar are determined by the whole string. */
  lemma HeadsDetermined(a: string, b: string, x: string, y: string)
    requires NoBar(a) && NoBar(b)
    requires a + ("|" + x) == b + ("|" + y)
    ensures a == b && x == y
  {
    var p, q := a + ("|" + x), b + ("|" + y);
    assert p[|a|] == '|' && q[|b|] == '|';
    assert forall i :: 0 <= i < |a| ==> p[i] == a[i];
    assert forall i :: 0 <= i < |b| ==> q[i] == b[i];
    assert |a| == |b|;
    assert a == p[..|a|] && b == q[..|b|];
    assert x == p[|a| + 1..] && y == q[|b| + 1..];
  }

  lemma CommonPrefix(p: string, x: string, y: string)
    requires p + x == p + y
    ensures x == y
  {
    assert x == (p + x)[|p|..] && y == (p + y)[|p|..];
  }

  lemma ScopePathDetermines(a: Identity, b: Identity)
    requires WellFormed(a) && WellFormed(b) && ScopePath(a) == ScopePath(b)
    ensures a.scope == b.scope && a.location == b.location
  {
    assert a.scope.Region? ==> ScopePath(a)[0] == 'r' && ScopePath(a)[8..] == a.location;
    assert b.scope.Region? ==> ScopePath(b)[0] == 'r' && ScopePath(b)[8..] == b.location;
    assert a.scope.Zone? ==> ScopePath(a)[0] == 'z' && ScopePath(a)[6..] == a.location;
    assert b.scope.Zone? ==> ScopePath(b)[0] == 'z' && ScopePath(b)[6..] == b.location;
    assert a.scope.Global? ==> ScopePath(a)[0] == 'g';
    assert b.scope.Global? ==> ScopePath(b)[0] == 'g';
  }

  /** What follows the scope: the optional parent, the kind and the name. */
  function Rest(i: Identity): string {
    if NestedNAT(i) then ("parent=" + i.parentName) + ("|" + (i.kind + ("|" + i.name))) else i.kind + ("|" + i.name)
  }

  lemma KeyShape(i: Identity)
    ensures CanonicalTargetKey(i) ==
            KEY_PREFIX + (i.project + ("|" + (i.service + ("|" + (ScopePath(i) + ("|" + Rest(i)))))))
  {
    var tail := i.kind + ("|" + i.name);
    assert i.kind + "|" + i.name == tail;
    if NestedNAT(i) {
      assert ParentPath(i) + ("|" + tail) == "|" + (("parent=" + i.parentName) + ("|" + tail));
    } else {
      assert ParentPath(i) + ("|" + tail) == "|" + tail;
    }
    var rest := ScopePath(i) + ("|" + Rest(i));
    assert i.service + "|" + rest == i.service + ("|" + rest);
    assert i.project + "|" + (i.service + ("|" + rest)) == i.project + ("|" + (i.service + ("|" + rest)));
  }

  lemma RestDetermines(a: Identity, b: Identity)
    requires WellFormed(a) && WellFormed(b) && Rest(a) == Rest(b) && a.service == b.service
    ensures a.kind == b.kind && a.name == b.name && a.parentName == b.parentName
  {
    var pa, pb := "parent=" + a.parentName, "parent=" + b.parentName;
    assert pa[6] == '=' && pb[6] == '=';
    if NestedNAT(a) && NestedNAT(b) {
      HeadsDetermined(pa, pb, a.kind + ("|" + a.name), b.kind + ("|" + b.name));
      assert a.parentName == pa[7..] && b.parentName == pb[7..];
      HeadsDetermined(a.kind, b.kind, a.name, b.name);
    } else if NestedNAT(a) {
      HeadsDetermined(pa, b.kind, a.kind + ("|" + a.name), b.name);
      assert false;
    } else if NestedNAT(b) {
      HeadsDetermined(a.kind, pb, a.name, b.kind + ("|" + b.name));
      assert false;
    } else {
      HeadsDetermined(a.kind, b.kind, a.name, b.name);
    }
  }

  /** A canonical key stands for exactly one identity. */
  lemma KeyIsInjective(a: Identity, b: Identity)
    requires ValidIdentity(a) && ValidIdentity(b) && a.canonicalKey == b.canonicalKey
    ensures a == b
  {
    KeyShape(a);
    KeyShape(b);
    var sa, sb := ScopePath(a) + ("|" + Rest(a)), ScopePath(b) + ("|" + Rest(b));
    CommonPrefix(KEY_PREFIX, a.project + ("|" + (a.service + ("|" + sa))), b.project + ("|" + (b.service + ("|" + sb))));
    HeadsDetermined(a.project, b.project, a.service + ("|" + sa), b.service + ("|" + sb));
    HeadsDetermined(a.service, b.service, sa, sb);
    HeadsDetermined(ScopePath(a), ScopePath(b), Rest(a), Rest(b));
    ScopePathDetermines(a, b);
    RestDetermines(a, b);
  }

  // ----- Locks -----

  datatype Principal = Principal(kind: string, subject: string)

  const NO_PRINCIPAL := Principal("", "")
  const TEST_ENVIRONMENT := "disposable"

  datatype EnvironmentIdentity = EnvironmentIdentity(environment: string, cls: string)
  datatype EnvironmentLock = EnvironmentLock(
    environment: string, cls: string, runID: string, active: bool, holder: Principal)

  /** The pattern checks the lock proof makes, left abstract. */
  datatype Patterns = Patterns(
    environmentName: string -> bool, environmentClass: string -> bool, principal: Principal -> bool,
    runID: string -> bool, permission: string -> bool, project: string -> bool, inventoryVersion: string -> bool)

  predicate ExpectedOk(p: Patterns, e: EnvironmentIdentity) {
    p.environmentName(e.environment) && e.environment != TEST_ENVIRONMENT && p.environmentClass(e.cls) &&
    e.cls != DISPOSABLE
  }

  /** One lock observation on its own, for the run and the harness principal. */
  predicate LockOk(p: Patterns, expected: seq<EnvironmentIdentity>, runID: string, harness: Principal, l: EnvironmentLock) {
    && p.environmentName(l.environment) && p.environmentClass(l.cls)
    && (if l.active then p.principal(l.holder) else l.holder == NO_PRINCIPAL)
    && (if l.cls == DISPOSABLE
        then l.environment == TEST_ENVIRONMENT && l.runID == runID && l.active && l.holder == harness
        else l.runID == "" && !(l.active && l.holder == harness) &&
             EnvironmentIdentity(l.environment, l.cls) in expected)
  }

  predicate DistinctEnvironments(expected: seq<EnvironmentIdentity>) {
    forall i, j :: 0 <= i < j < |expected| ==> expected[i].environment != expected[j].environment
  }

  ghost predicate DistinctLocks(locks: seq<EnvironmentLock>) {
    forall i, j :: 0 <= i < j < |locks| ==> locks[i].environment != locks[j].environment
  }

  ghost predicate Observes(locks: seq<EnvironmentLock>, e: EnvironmentIdentity) {
    exists i :: 0 <= i < |locks| && locks[i].environment == e.environment && locks[i].cls == e.cls
  }

  /** Exactly the run's own lock, held, plus one observation per declared environment. */
  ghost predicate ExactLockSet(p: Patterns, locks: seq<EnvironmentLock>, expected: seq<EnvironmentIdentity>,
                               runID: string, harness: Principal) {
    && p.runID(runID) && p.principal(harness) && expected != []
    && (forall i :: 0 <= i < |expected| ==> ExpectedOk(p, expected[i]))
    && DistinctEnvironments(expected)
    && (forall i :: 0 <= i < |locks| ==> LockOk(p, expected, runID, harness, locks[i]))
    && DistinctLocks(locks)
    && (exists i :: 0 <= i < |locks| && locks[i].cls == DISPOSABLE)
    && (forall i :: 0 <= i < |expected| ==> Observes(locks, expected[i]))
  }

  /** Accepts exactly the exact lock sets: the final size comparisons add nothing
      beyond presence of every declared environment and of the run lock. */
  method ValidateHarnessLocks(p: Patterns, locks: seq<EnvironmentLock>, expected: seq<EnvironmentIdentity>,
                              runID: string, harness: Principal) returns (ok: bool)
    ensures ok <==> ExactLockSet(p, locks, expected, runID, harness)
  {
    if !p.runID(runID) || !p.principal(harness) || |expected| == 0 {
      return false;
    }
    var expectedSet: set<EnvironmentIdentity> := {};
    var expectedNames: set<string> := {};
    for i := 0 to |expected|
      invariant forall k :: 0 <= k < i ==> ExpectedOk(p, expected[k])
      invariant DistinctEnvironments(expected[..i])
      invariant expectedSet == Elements(expected[..i])
      invariant expectedNames == set k | 0 <= k < i :: expected[k].environment
    {
      var e := expected[i];
      assert expected[..i + 1] == expected[..i] + [e];
      if !ExpectedOk(p, e) {
        return false;
      }
      if e.environment in expectedNames {
        var k :| 0 <= k < i && expected[k].environment == e.environment;
        return false;
      }
      expectedSet := expectedSet + {e};
      expectedNames := expectedNames + {e.environment};
    }
    assert expected[..|expected|] == expected;
    ok := ObserveLocks(p, locks, expected, expectedSet, runID, harness);
  }

  /** The second loop and the closing size comparisons. */
  method ObserveLocks(p: Patterns, locks: seq<EnvironmentLock>, expected: seq<EnvironmentIdentity>,
                      expectedSet: set<EnvironmentIdentity>, runID: string, harness: Principal) returns (ok: bool)
    requires expectedSet == Elements(expected)
    requires forall i :: 0 <= i < |expected| ==> ExpectedOk(p, expected[i])
    ensures ok <==>
            && (forall i :: 0 <= i < |locks| ==> LockOk(p, expected, runID, harness, locks[i]))
            && DistinctLocks(locks)
            && (exists i :: 0 <= i < |locks| && locks[i].cls == DISPOSABLE)
            && (forall i :: 0 <= i < |expected| ==> Observes(locks, expected[i]))
  {
    hide LockOk, ExpectedOk, Observes, Tally, DistinctLocks;
    var seenEnvironments: set<string> := {};
    var seenExpected: set<EnvironmentIdentity> := {};
    var runLockSeen := false;
    TallyStart(locks, expectedSet);
    for i := 0 to |locks|
      invariant forall k :: 0 <= k < i ==> LockOk(p, expected, runID, harness, locks[k])
      invariant DistinctLocks(locks[..i])
      invariant forall x :: x in seenEnvironments <==> exists k :: 0 <= k < i && locks[k].environment == x
      invariant Tally(locks, i, seenExpected, runLockSeen, expectedSet)
    {
      var l := locks[i];
      DistinctOneMore(locks, i);
      if l.environment in seenEnvironments {
        return false;
      }
      if !LockOk(p, expected, runID, harness, l) {
        return false;
      }
      TallyStep(p, locks, expected, expectedSet, seenExpected, runLockSeen, runID, harness, i);
      seenEnvironments := seenEnvironments + {l.environment};
      if l.cls == DISPOSABLE {
        runLockSeen := true;
      } else {
        seenExpected := seenExpected + {EnvironmentIdentity(l.environment, l.cls)};
      }
    }
    assert locks[..|locks|] == locks;
    TallyEnd(p, locks, expected, expectedSet, seenExpected, runLockSeen);
    if !runLockSeen || |seenExpected| != |expectedSet| {
      return false;
    }
    return |locks| == |expectedSet| + 1;
  }

  /** What the loop has counted after `i` locks. */
  ghost predicate Tally(locks: seq<EnvironmentLock>, i: nat, seenExpected: set<EnvironmentIdentity>, runLockSeen: bool,
                        expectedSet: set<EnvironmentIdentity>)
  {
    && i <= |locks|
    && (runLockSeen <==> exists k :: 0 <= k < i && locks[k].cls == DISPOSABLE)
    && seenExpected <= expectedSet
    && (forall e :: e in seenExpected <==> e.cls != DISPOSABLE && Observes(locks[..i], e))
    && |seenExpected| == i - (if runLockSeen then 1 else 0)
  }

  lemma TallyStart(locks: seq<EnvironmentLock>, expectedSet: set<EnvironmentIdentity>)
    ensures Tally(locks, 0, {}, false, expectedSet)
    ensures DistinctLocks(locks[..0])
  {
  }

  lemma DistinctOneMore(locks: seq<EnvironmentLock>, i: nat)
    requires i < |locks| && DistinctLocks(locks[..i])
    ensures DistinctLocks(locks[..i + 1]) <==> forall k :: 0 <= k < i ==> locks[k].environment != locks[i].environment
    ensures (exists k :: 0 <= k < i && locks[k].environment == locks[i].environment) ==> !DistinctLocks(locks)
  {
    assert forall k :: 0 <= k < i ==> locks[..i + 1][k] == locks[..i][k] == locks[k];
    assert locks[..i + 1][i] == locks[i];
  }

  lemma TallyStep(p: Patterns, locks: seq<EnvironmentLock>, expected: seq<EnvironmentIdentity>,
                  expectedSet: set<EnvironmentIdentity>, seenExpected: set<EnvironmentIdentity>, runLockSeen: bool,
                  runID: string, harness: Principal, i: nat)
    requires expectedSet == Elements(expected)
    requires i < |locks| && forall k :: 0 <= k <= i ==> LockOk(p, expected, runID, harness, locks[k])
    requires forall k :: 0 <= k < i ==> locks[k].environment != locks[i].environment
    requires Tally(locks, i, seenExpected, runLockSeen, expectedSet)
    ensures if locks[i].cls == DISPOSABLE then Tally(locks, i + 1, seenExpected, true, expectedSet)
            else Tally(locks, i + 1, seenExpected + {EnvironmentIdentity(locks[i].environment, locks[i].cls)},
                       runLockSeen, expectedSet)
  {
    ObservesOneMore(locks, i);
    NewObservation(p, locks, expected, runID, harness, i);
  }

  lemma TallyEnd(p: Patterns, locks: seq<EnvironmentLock>, expected: seq<EnvironmentIdentity>,
                 expectedSet: set<EnvironmentIdentity>, seenExpected: set<EnvironmentIdentity>, runLockSeen: bool)
    requires expectedSet == Elements(expected)
    requires forall i :: 0 <= i < |expected| ==> ExpectedOk(p, expected[i])
    requires Tally(locks, |locks|, seenExpected, runLockSeen, expectedSet)
    ensures runLockSeen <==> exists i :: 0 <= i < |locks| && locks[i].cls == DISPOSABLE
    ensures |seenExpected| == |expectedSet| <==> forall i :: 0 <= i < |expected| ==> Observes(locks, expected[i])
    ensures runLockSeen && |seenExpected| == |expectedSet| ==> |locks| == |expectedSet| + 1
  {
    assert locks[..|locks|] == locks;
    if |seenExpected| == |expectedSet| {
      SubsetOfSameSize(seenExpected, expectedSet);
      assert forall i :: 0 <= i < |expected| ==> expected[i] in expectedSet;
    } else {
      ExpectedAreNotDisposable(p, expected);
      MissingOne(expected, expectedSet, seenExpected, locks);
    }
  }

  lemma ExpectedAreNotDisposable(p: Patterns, expected: seq<EnvironmentIdentity>)
    requires forall i :: 0 <= i < |expected| ==> ExpectedOk(p, expected[i])
    ensures forall i :: 0 <= i < |expected| ==> expected[i].cls != DISPOSABLE
  {
  }

  /** A lock with a new environment name is a new kind of observation: no second
      run lock, no second sighting of a declared environment. */
  lemma NewObservation(p: Patterns, locks: seq<EnvironmentLock>, expected: seq<EnvironmentIdentity>,
                       runID: string, harness: Principal, i: nat)
    requires i < |locks| && forall k :: 0 <= k <= i ==> LockOk(p, expected, runID, harness, locks[k])
    requires forall k :: 0 <= k < i ==> locks[k].environment != locks[i].environment
    ensures locks[i].cls == DISPOSABLE ==> forall k :: 0 <= k < i ==> locks[k].cls != DISPOSABLE
    ensures locks[i].cls != DISPOSABLE ==>
              EnvironmentIdentity(locks[i].environment, locks[i].cls) in expected &&
              !Observes(locks[..i], EnvironmentIdentity(locks[i].environment, locks[i].cls))
  {
  }

  lemma ObservesOneMore(locks: seq<EnvironmentLock>, i: nat)
    requires i < |locks|
    ensures forall e :: Observes(locks[..i + 1], e) <==>
              Observes(locks[..i], e) || (locks[i].environment == e.environment && locks[i].cls == e.cls)
  {
    forall e
      ensures Observes(locks[..i + 1], e) <==>
              Observes(locks[..i], e) || (locks[i].environment == e.environment && locks[i].cls == e.cls)
    {
      if Observes(locks[..i], e) {
        var k :| 0 <= k < i && locks[..i][k].environment == e.environment && locks[..i][k].cls == e.cls;
        assert locks[..i + 1][k] == locks[..i][k];
      }
      if Observes(locks[..i + 1], e) {
        var k :| 0 <= k < i + 1 && locks[..i + 1][k].environment == e.environment && locks[..i + 1][k].cls == e.cls;
        if k < i {
          assert locks[..i][k] == locks[..i + 1][k];
        }
      }
      assert locks[..i + 1][i] == locks[i];
    }
  }

  lemma MissingOne(expected: seq<EnvironmentIdentity>, expectedSet: set<EnvironmentIdentity>,
                   seen: set<EnvironmentIdentity>, locks: seq<EnvironmentLock>)
    requires expectedSet == Elements(expected) && seen <= expectedSet && |seen| != |expectedSet|
    requires forall e :: e in seen <==> e.cls != DISPOSABLE && Observes(locks, e)
    requires forall i :: 0 <= i < |expected| ==> expected[i].cls != DISPOSABLE
    ensures exists i :: 0 <= i < |expected| && !Observes(locks, expected[i])
  {
    assert expectedSet - seen != {} by {
      assert expectedSet == seen + (expectedSet - seen);
    }
    var e :| e in expectedSet - seen;
    var i :| 0 <= i < |expected| && expected[i] == e;
  }

  lemma ObservesReordered(a: seq<EnvironmentLock>, b: seq<EnvironmentLock>, e: EnvironmentIdentity)
    requires multiset(a) == multiset(b) && Observes(a, e)
    ensures Observes(b, e)
  {
    ReorderKeepsElements(a, b);
    var i :| 0 <= i < |a| && a[i].environment == e.environment && a[i].cls == e.cls;
    assert a[i] in b;
    var k :| 0 <= k < |b| && b[k] == a[i];
  }

  /** The lock proof does not depend on the order of either list. */
  lemma LocksReordered(p: Patterns, a: seq<EnvironmentLock>, b: seq<EnvironmentLock>, expectedA: seq<EnvironmentIdentity>,
                       expectedB: seq<EnvironmentIdentity>, runID: string, harness: Principal)
    requires ExactLockSet(p, a, expectedA, runID, harness)
    requires multiset(a) == multiset(b) && multiset(expectedA) == multiset(expectedB)
    ensures ExactLockSet(p, b, expectedB, runID, harness)
  {
    ReorderKeepsElements(a, b);
    ReorderKeepsElements(expectedA, expectedB);
    DistinctByReordered((e: EnvironmentIdentity) => e.environment, expectedA, expectedB);
    DistinctByReordered((l: EnvironmentLock) => l.environment, a, b);
    forall i | 0 <= i < |expectedB| ensures Observes(b, expectedB[i]) && ExpectedOk(p, expectedB[i]) {
      assert expectedB[i] in expectedA;
      var k :| 0 <= k < |expectedA| && expectedA[k] == expectedB[i];
      ObservesReordered(a, b, expectedA[k]);
    }
    forall i | 0 <= i < |b| ensures LockOk(p, expectedB, runID, harness, b[i]) {
      assert b[i] in a;
      var k :| 0 <= k < |a| && a[k] == b[i];
      assert LockOk(p, expectedA, runID, harness, a[k]);
    }
    var i :| 0 <= i < |a| && a[i].cls == DISPOSABLE;
    assert a[i] in b;
  }

  // ----- Permission evidence -----

  /** A policy-owned pin of a complete inventory; a digest stands for what it digests. */
  datatype Pin<T> = Pin(id: string, version: string, fingerprint: T)

  predicate PinNamed<T>(p: Patterns, pin: Pin<T>) {
    IsStepID(pin.id) && p.inventoryVersion(pin.version)
  }

  datatype PermissionObservation = PermissionObservation(
    identity: Principal, resource: Identity, permission: string, granted: bool)

  /** What identifies an observation apart from its verdict. */
  function PermissionKey(o: PermissionObservation): seq<string> {
    [o.identity.kind, o.identity.subject, o.resource.canonicalKey, o.permission]
  }

  predicate ObservationOk(p: Patterns, forbiddenWrite: string -> bool, principal: Principal, o: PermissionObservation) {
    && p.principal(o.identity) && ValidIdentity(o.resource) && p.permission(o.permission)
    && o.identity == principal
    && !(o.granted && forbiddenWrite(o.permission))
  }

  /** The observed tuples are the expected ones, verdicts included, in any order. */
  ghost predicate ExactTuples(p: Patterns, forbiddenWrite: string -> bool, principal: Principal,
                              expected: seq<PermissionObservation>, observed: seq<PermissionObservation>) {
    && expected != []
    && (forall i :: 0 <= i < |expected| ==> ObservationOk(p, forbiddenWrite, principal, expected[i]))
    && DistinctBy(PermissionKey, expected)
    && multiset(observed) == multiset(expected)
  }

  lemma SameKeySameObservation(a: PermissionObservation, b: PermissionObservation)
    requires PermissionKey(a) == PermissionKey(b) && ValidIdentity(a.resource) && ValidIdentity(b.resource)
    requires a.granted == b.granted
    ensures a == b
  {
    KeyIsInjective(a.resource, b.resource);
    assert PermissionKey(a)[0] == PermissionKey(b)[0] && PermissionKey(a)[1] == PermissionKey(b)[1];
    assert PermissionKey(a)[2] == PermissionKey(b)[2] && PermissionKey(a)[3] == PermissionKey(b)[3];
  }

  /** The order the inventory is digested in: by key, refusals before grants. */
  function PermissionSortKey(o: PermissionObservation): seq<string> {
    [o.identity.kind, o.identity.subject, o.resource.canonicalKey, o.permission, if o.granted then "1" else "0"]
  }

  predicate PermissionLess(a: PermissionObservation, b: PermissionObservation) {
    TupleLess(PermissionSortKey(a), PermissionSortKey(b))
  }

  ghost predicate PermissionProof(p: Patterns, forbiddenWrite: string -> bool, pin: Pin<seq<PermissionObservation>>,
                                  expected: seq<PermissionObservation>, observed: seq<PermissionObservation>,
                                  principal: Principal)
  {
    && PinNamed(p, pin) && p.principal(principal)
    && ExactTuples(p, forbiddenWrite, principal, expected, observed)
    && SortBy(PermissionLess, expected) == pin.fingerprint
  }

  /** Accepts exactly when the observations are the pinned expectation, reordered at most. */
  method ValidatePermissionProof(p: Patterns, forbiddenWrite: string -> bool, pin: Pin<seq<PermissionObservation>>,
                                 expected: seq<PermissionObservation>, observed: seq<PermissionObservation>,
                                 principal: Principal) returns (ok: bool)
    ensures ok <==> PermissionProof(p, forbiddenWrite, pin, expected, observed, principal)
  {
    hide ObservationOk, TupleLess, SortBy, PermissionKey, Filed, DistinctBy, DistinctUpTo, PinNamed;
    if !PinNamed(p, pin) || !p.principal(principal) || |expected| == 0 {
      return false;
    }
    var expectedByKey: map<seq<string>, PermissionObservation> := map[];
    FileStart(PermissionKey, expected);
    for i := 0 to |expected|
      invariant forall k :: 0 <= k < i ==> ObservationOk(p, forbiddenWrite, principal, expected[k])
      invariant DistinctUpTo(PermissionKey, expected, i) && Filed(PermissionKey, expected, i, expectedByKey)
    {
      var item := expected[i];
      if !ObservationOk(p, forbiddenWrite, principal, item) {
        return false;
      }
      NotFiledYet(PermissionKey, expected, i, expectedByKey);
      if PermissionKey(item) in expectedByKey {
        return false;
      }
      FileOneMore(PermissionKey, expected, i, expectedByKey);
      expectedByKey := expectedByKey[PermissionKey(item) := item];
    }
    DistinctToTheEnd(PermissionKey, expected);
    if SortBy(PermissionLess, expected) != pin.fingerprint {
      return false;
    }
    ok := MatchObserved(p, forbiddenWrite, expectedByKey, expected, observed, principal);
  }

  /** The second loop: every observation is expected, with the expected verdict, and none is missing. */
  method MatchObserved(p: Patterns, forbiddenWrite: string -> bool,
                       expectedByKey: map<seq<string>, PermissionObservation>, expected: seq<PermissionObservation>,
                       observed: seq<PermissionObservation>, principal: Principal) returns (ok: bool)
    requires Filed(PermissionKey, expected, |expected|, expectedByKey) && DistinctBy(PermissionKey, expected)
    requires forall k :: 0 <= k < |expected| ==> ObservationOk(p, forbiddenWrite, principal, expected[k])
    ensures ok <==> multiset(observed) == multiset(expected)
  {
    hide ObservationOk, PermissionKey, Filed, Seen, DistinctBy;
    var seen: set<seq<string>> := {};
    SeenStart(PermissionKey, observed);
    for i := 0 to |observed|
      invariant forall k :: 0 <= k < i ==> observed[k] in expected
      invariant Seen(PermissionKey, observed, i, seen)
    {
      var item := observed[i];
      StrangerRefused(expected, observed, i);
      if !ObservationOk(p, forbiddenWrite, principal, item) {
        return false;
      }
      SeeOneMore(PermissionKey, observed, i, seen);
      if PermissionKey(item) in seen {
        RepeatRefused(expected, observed);
        return false;
      }
      Lookup(p, forbiddenWrite, principal, expectedByKey, expected, item);
      if PermissionKey(item) !in expectedByKey || expectedByKey[PermissionKey(item)].granted != item.granted {
        return false;
      }
      seen := seen + {PermissionKey(item)};
    }
    SeenAll(PermissionKey, observed, seen);
    SizesDecide(expectedByKey, expected, observed);
    return |seen| == |expectedByKey|;
  }

  lemma StrangerRefused(expected: seq<PermissionObservation>, observed: seq<PermissionObservation>, i: nat)
    requires i < |observed|
    ensures observed[i] !in expected ==> multiset(observed) != multiset(expected)
  {
    assert observed[i] in multiset(observed);
  }

  lemma RepeatRefused(expected: seq<PermissionObservation>, observed: seq<PermissionObservation>)
    requires DistinctBy(PermissionKey, expected) && !DistinctBy(PermissionKey, observed)
    ensures multiset(observed) != multiset(expected)
  {
    hide DistinctBy, PermissionKey;
    if multiset(observed) == multiset(expected) {
      DistinctByReordered(PermissionKey, expected, observed);
    }
  }

  /** Finding the key with the same verdict is finding the observation itself. */
  lemma Lookup(p: Patterns, forbiddenWrite: string -> bool, principal: Principal,
               byKey: map<seq<string>, PermissionObservation>, expected: seq<PermissionObservation>,
               item: PermissionObservation)
    requires Filed(PermissionKey, expected, |expected|, byKey) && ObservationOk(p, forbiddenWrite, principal, item)
    requires forall k :: 0 <= k < |expected| ==> ObservationOk(p, forbiddenWrite, principal, expected[k])
    ensures item in expected <==> PermissionKey(item) in byKey && byKey[PermissionKey(item)].granted == item.granted
  {
    hide PermissionKey, ValidIdentity;
    if item in expected {
      var k :| 0 <= k < |expected| && expected[k] == item;
      assert PermissionKey(expected[k]) in byKey;
    }
    if PermissionKey(item) in byKey && byKey[PermissionKey(item)].granted == item.granted {
      FiledEntry(PermissionKey, expected, |expected|, byKey, PermissionKey(item));
      SameKeySameObservation(byKey[PermissionKey(item)], item);
    }
  }

  lemma SizesDecide(byKey: map<seq<string>, PermissionObservation>, expected: seq<PermissionObservation>,
                    observed: seq<PermissionObservation>)
    requires Filed(PermissionKey, expected, |expected|, byKey)
    requires DistinctBy(PermissionKey, expected) && DistinctBy(PermissionKey, observed)
    requires forall k :: 0 <= k < |observed| ==> observed[k] in expected
    ensures |observed| == |byKey| <==> multiset(observed) == multiset(expected)
  {
    DistinctByIsDistinct(PermissionKey, expected);
    DistinctByIsDistinct(PermissionKey, observed);
    if |observed| == |byKey| {
      DistinctCount(expected);
      DistinctCount(observed);
      SubsetOfSameSize(Elements(observed), Elements(expected));
      forall x ensures x in observed <==> x in expected {
        assert x in Elements(observed) <==> x in Elements(expected);
      }
      SameElementsReorder(observed, expected);
    } else {
      assert |multiset(observed)| != |multiset(expected)|;
    }
  }

  /** The permission proof, and the digest it is pinned by, do not depend on the order of either list. */
  lemma PermissionsReordered(p: Patterns, forbiddenWrite: string -> bool, pin: Pin<seq<PermissionObservation>>,
                             expectedA: seq<PermissionObservation>, expectedB: seq<PermissionObservation>,
                             observedA: seq<PermissionObservation>, observedB: seq<PermissionObservation>,
                             principal: Principal)
    requires PermissionProof(p, forbiddenWrite, pin, expectedA, observedA, principal)
    requires multiset(expectedA) == multiset(expectedB) && multiset(observedA) == multiset(observedB)
    ensures PermissionProof(p, forbiddenWrite, pin, expectedB, observedB, principal)
    ensures SortBy(PermissionLess, observedA) == SortBy(PermissionLess, observedB)
  {
    hide SortBy, ObservationOk, TupleLess;
    ReorderKeepsElements(expectedA, expectedB);
    ReorderKeepsElements(observedA, expectedA);
    DistinctByReordered(PermissionKey, expectedA, expectedB);
    forall i | 0 <= i < |expectedB| ensures ObservationOk(p, forbiddenWrite, principal, expectedB[i]) {
      assert expectedB[i] in expectedA;
    }
    PermissionsOrdered(p, forbiddenWrite, principal, expectedA);
    SortCanonical(PermissionLess, expectedA, expectedB);
    PermissionsOrdered(p, forbiddenWrite, principal, expectedA);
    SortCanonical(PermissionLess, expectedA, observedA);
    SortCanonical(PermissionLess, expectedA, observedB);
  }

  lemma PermissionsOrdered(p: Patterns, forbiddenWrite: string -> bool, principal: Principal,
                           s: seq<PermissionObservation>)
    requires forall k :: 0 <= k < |s| ==> ObservationOk(p, forbiddenWrite, principal, s[k])
    ensures Orders(PermissionLess, s)
  {
    forall x, y | x in s && y in s && PermissionSortKey(x) == PermissionSortKey(y) ensures x == y {
      var a, b := PermissionSortKey(x), PermissionSortKey(y);
      assert a[0] == b[0] && a[1] == b[1] && a[2] == b[2] && a[3] == b[3] && a[4] == b[4];
      assert (if x.granted then "1" else "0")[0] == (if y.granted then "1" else "0")[0];
      KeyIsInjective(x.resource, y.resource);
    }
    KeyOrders(PermissionLess, PermissionSortKey, s);
  }
}
