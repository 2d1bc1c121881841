/** The import closure of the verifier packages, and the de-duplication of findings. */
module Archcheck {
  import opened Text
  import opened Collections

  datatype Finding = Finding(filename: string, line: int, column: int, message: string)

  /** An import, with the finding it raises when it is forbidden. */
  datatype Import = Import(path: string, forbidden: seq<Finding>)

  /** Every repository package with its imports and its own findings. */
  datatype Repository = Repository(
    modulePath: string, imports: map<string, seq<Import>>, capability: map<string, seq<Finding>>)

  const VERIFY := "/internal/verify"

  predicate IsVerifier(r: Repository, package: string) {
    package == r.modulePath + VERIFY || r.modulePath + VERIFY + "/" <= package
  }

  predicate Imports(imports: seq<Import>, q: string) {
    exists i :: 0 <= i < |imports| && imports[i].path == q
  }

  /** A followed import: beneath the module path, and a package of the repository. */
  predicate Follows(r: Repository, package: string, target: string) {
    && package in r.imports && target in r.imports && r.modulePath + "/" <= target
    && Imports(r.imports[package], target)
  }

  /** A chain of followed imports. */
  predicate Path(r: Repository, path: seq<string>) {
    && path != [] && path[0] in r.imports
    && forall i :: 0 < i < |path| ==> Follows(r, path[i - 1], path[i])
  }

  ghost predicate PathFrom(r: Repository, path: seq<string>, package: string) {
    Path(r, path) && IsVerifier(r, path[0]) && path[|path| - 1] == package
  }

  /** Some verifier package reaches the package. */
  ghost predicate Reachable(r: Repository, package: string) {
    exists path :: PathFrom(r, path, package)
  }

  lemma ReachableStart(r: Repository, package: string)
    requires package in r.imports && IsVerifier(r, package)
    ensures Reachable(r, package)
  {
    assert PathFrom(r, [package], package);
  }

  lemma ReachableStep(r: Repository, package: string, target: string)
    requires Reachable(r, package) && Follows(r, package, target)
    ensures Reachable(r, target)
  {
    var path :| PathFrom(r, path, package);
    var longer := path + [target];
    forall i | 0 < i < |longer| ensures Follows(r, longer[i - 1], longer[i]) {
      assert i < |path| ==> Follows(r, path[i - 1], path[i]);
    }
    assert PathFrom(r, longer, target);
  }

  /** A set that holds the verifiers and is closed under followed imports holds everything reachable. */
  lemma {:induction false} ClosedHoldsPath(r: Repository, s: set<string>, path: seq<string>, package: string)
    requires forall p :: p in r.imports && IsVerifier(r, p) ==> p in s
    requires forall p, q :: p in s && Follows(r, p, q) ==> q in s
    requires PathFrom(r, path, package)
    ensures package in s
    decreases |path|
  {
    hide IsVerifier, Follows;
    if |path| > 1 {
      var shorter := path[..|path| - 1];
      assert PathFrom(r, shorter, path[|path| - 2]);
      ClosedHoldsPath(r, s, shorter, path[|path| - 2]);
      assert Follows(r, path[|path| - 2], path[|path| - 1]);
    }
  }

  // ----- What the walk mentions and reports -----

  /** The packages a list of imports makes the walk queue, in import order. */
  function Targets(r: Repository, imports: seq<Import>): seq<string> {
    if imports == [] then []
    else
      var last := imports[|imports| - 1].path;
      Targets(r, imports[..|imports| - 1]) +
      (if r.modulePath + "/" <= last && last in r.imports then [last] else [])
  }

  function Forbidden(imports: seq<Import>): seq<Finding> {
    if imports == [] then []
    else Forbidden(imports[..|imports| - 1]) + imports[|imports| - 1].forbidden
  }

  function ImportsOf(r: Repository, package: string): seq<Import> {
    if package in r.imports then r.imports[package] else []
  }

  /** One package's findings: its capabilities, then its imports in order. */
  function Report(r: Repository, package: string): seq<Finding> {
    (if package in r.capability then r.capability[package] else []) + Forbidden(ImportsOf(r, package))
  }

  function Reports(r: Repository, walk: seq<string>): seq<Finding> {
    if walk == [] then [] else Reports(r, walk[..|walk| - 1]) + Report(r, walk[|walk| - 1])
  }

  /** Everything the packages of a walk import, package by package. */
  function Mentions(r: Repository, walk: seq<string>): seq<string> {
    if walk == [] then []
    else Mentions(r, walk[..|walk| - 1]) + Targets(r, ImportsOf(r, walk[|walk| - 1]))
  }

  ghost predicate RootsOf(r: Repository, roots: seq<string>) {
    StrictlySorted(roots) && forall q :: q in roots <==> q in r.imports && IsVerifier(r, q)
  }

  /** Breadth first: the roots, then every package in the order of its first
      mention, which is by a package before it. */
  ghost predicate BreadthFirst(r: Repository, roots: seq<string>, walk: seq<string>) {
    && walk == Firsts(roots + Mentions(r, walk))
    && forall k :: 0 <= k < |walk| ==> walk[k] in roots + Mentions(r, walk[..k])
  }

  lemma {:induction false} MentionsPrefix(r: Repository, walk: seq<string>, k: nat)
    requires k <= |walk|
    ensures Mentions(r, walk[..k]) <= Mentions(r, walk)
  {
    if k == |walk| {
      assert walk[..k] == walk;
    } else {
      assert walk[..|walk| - 1][..k] == walk[..k];
      MentionsPrefix(r, walk[..|walk| - 1], k);
    }
  }

  /** At most one list is the breadth-first walk. */
  lemma WalkUnique(r: Repository, roots: seq<string>, a: seq<string>, b: seq<string>)
    requires BreadthFirst(r, roots, a) && BreadthFirst(r, roots, b)
    ensures a == b
  {
    hide BreadthFirst;
    WalksAgree(r, roots, a, b, |a|);
    WalksAgree(r, roots, b, a, |b|);
    assert a[..|a|] == a && b[..|b|] == b;
  }

  lemma {:induction false} WalksAgree(r: Repository, roots: seq<string>, a: seq<string>, b: seq<string>, k: nat)
    requires BreadthFirst(r, roots, a) && BreadthFirst(r, roots, b) && k <= |a|
    ensures k <= |b| && a[..k] == b[..k]
  {
    hide Mentions, Firsts;
    if k > 0 {
      var n := k - 1;
      WalksAgree(r, roots, a, b, n);
      NextInWalk(r, roots, a, n);
      var m := roots + Mentions(r, a[..n]);
      MentionsPrefix(r, b, n);
      assert roots + Mentions(r, b) == m + Mentions(r, b)[|Mentions(r, b[..n])|..];
      FirstsPrefix(m, Mentions(r, b)[|Mentions(r, b[..n])|..]);
    }
  }

  /** What is mentioned before a place of the walk already decides that place. */
  lemma NextInWalk(r: Repository, roots: seq<string>, walk: seq<string>, n: nat)
    requires BreadthFirst(r, roots, walk) && n < |walk|
    ensures var first := Firsts(roots + Mentions(r, walk[..n])); n < |first| && first[n] == walk[n]
  {
    hide Mentions, Firsts;
    var m := roots + Mentions(r, walk[..n]);
    MentionsPrefix(r, walk, n);
    assert roots + Mentions(r, walk) == m + Mentions(r, walk)[|Mentions(r, walk[..n])|..];
    FirstsPrefix(m, Mentions(r, walk)[|Mentions(r, walk[..n])|..]);
    FirstsKeepOrder(roots + Mentions(r, walk));
    var k :| 0 <= k < |Firsts(m)| && Firsts(m)[k] == walk[n];
    assert walk[k] == walk[n];
  }

  // ----- The worklist -----

  /** The targets a scan queues. */
  function Unseen(targets: seq<string>, seen: set<string>): seq<string> {
    if targets == [] then []
    else
      var last := targets[|targets| - 1];
      Unseen(targets[..|targets| - 1], seen) + (if last in seen then [] else [last])
  }

  /** The imports of one package: its forbidden-import findings and the packages to queue. */
  method Scan(r: Repository, package: string, visited: set<string>) returns (found: seq<Finding>, queued: seq<string>)
    requires package in r.imports
    ensures found == Forbidden(r.imports[package])
    ensures queued == Unseen(Targets(r, r.imports[package]), visited)
  {
    found, queued := [], [];
    var imports := r.imports[package];
    for i := 0 to |imports|
      invariant found == Forbidden(imports[..i])
      invariant queued == Unseen(Targets(r, imports[..i]), visited)
    {
      OneMoreImport(r, imports, i, visited);
      found := found + imports[i].forbidden;
      if r.modulePath + "/" <= imports[i].path && imports[i].path !in visited {
        if imports[i].path in r.imports {
          queued := queued + [imports[i].path];
        }
      }
    }
    assert imports[..|imports|] == imports;
  }

  lemma OneMoreImport(r: Repository, imports: seq<Import>, i: nat, visited: set<string>)
    requires i < |imports|
    ensures Forbidden(imports[..i + 1]) == Forbidden(imports[..i]) + imports[i].forbidden
    ensures var path := imports[i].path;
            Unseen(Targets(r, imports[..i + 1]), visited) ==
            Unseen(Targets(r, imports[..i]), visited) +
            if r.modulePath + "/" <= path && path in r.imports && path !in visited then [path] else []
  {
    assert imports[..i + 1][..i] == imports[..i];
    var before := Targets(r, imports[..i]);
    assert (before + [imports[i].path])[..|before|] == before;
    assert before + [] == before;
  }

  lemma ImportsOneMore(imports: seq<Import>, q: string)
    requires imports != []
    ensures var last := |imports| - 1;
            Imports(imports, q) <==> Imports(imports[..last], q) || imports[last].path == q
  {
    var last := |imports| - 1;
    if Imports(imports, q) && imports[last].path != q {
      var i :| 0 <= i < |imports| && imports[i].path == q;
      assert imports[..last][i].path == q;
    }
  }

  lemma {:induction false} TargetMembers(r: Repository, imports: seq<Import>, seen: set<string>)
    ensures forall q :: q in Unseen(Targets(r, imports), seen) <==>
              q in r.imports && r.modulePath + "/" <= q && q !in seen && Imports(imports, q)
  {
    hide Imports, Unseen, Targets;
    if imports == [] {
      NothingTargeted(r, imports, seen);
    } else {
      var last := |imports| - 1;
      TargetMembers(r, imports[..last], seen);
      OneMoreImport(r, imports, last, seen);
      assert imports[..last + 1] == imports;
      forall q
        ensures q in Unseen(Targets(r, imports), seen) <==>
                q in r.imports && r.modulePath + "/" <= q && q !in seen && Imports(imports, q)
      {
        ImportsOneMore(imports, q);
      }
    }
  }

  lemma NothingTargeted(r: Repository, imports: seq<Import>, seen: set<string>)
    requires imports == []
    ensures Unseen(Targets(r, imports), seen) == [] && forall q :: !Imports(imports, q)
  {
  }

  lemma {:induction false} ForbiddenMembers(imports: seq<Import>)
    ensures forall f :: f in Forbidden(imports) <==> exists i :: 0 <= i < |imports| && f in imports[i].forbidden
  {
    if imports != [] {
      ForbiddenMembers(imports[..|imports| - 1]);
    }
  }

  ghost predicate OwnFinding(r: Repository, package: string, f: Finding) {
    && package in r.imports
    && ((package in r.capability && f in r.capability[package]) ||
        exists i :: 0 <= i < |r.imports[package]| && f in r.imports[package][i].forbidden)
  }

  /** What holds between rounds: everything seen is reachable, everything followed
      from a visited package is visited or queued. */
  ghost predicate Frontier(r: Repository, queue: seq<string>, visited: set<string>) {
    && (forall q :: q in queue ==> q in r.imports && Reachable(r, q))
    && (forall p :: p in visited ==> p in r.imports && Reachable(r, p))
    && (forall p :: p in r.imports && IsVerifier(r, p) ==> p in visited || p in queue)
    && (forall p, q :: p in visited && Follows(r, p, q) ==> q in visited || q in queue)
  }

  lemma Skip(r: Repository, queue: seq<string>, visited: set<string>)
    requires queue != [] && Frontier(r, queue, visited) && queue[0] in visited
    ensures Frontier(r, queue[1..], visited)
  {
    hide Reachable, IsVerifier, Follows;
    assert forall q :: q in queue ==> q == queue[0] || q in queue[1..];
    assert forall q :: q in queue[1..] ==> q in queue;
  }

  lemma QueuedAreFollowed(r: Repository, package: string, seen: set<string>)
    requires package in r.imports
    ensures forall q :: q in Unseen(Targets(r, r.imports[package]), seen) <==> Follows(r, package, q) && q !in seen
  {
    hide Unseen, Targets;
    TargetMembers(r, r.imports[package], seen);
  }

  lemma Visit(r: Repository, queue: seq<string>, visited: set<string>, queued: seq<string>)
    requires queue != [] && Frontier(r, queue, visited) && queue[0] in r.imports
    requires queued == Unseen(Targets(r, r.imports[queue[0]]), visited + {queue[0]})
    ensures Frontier(r, queue[1..] + queued, visited + {queue[0]})
  {
    hide Reachable, IsVerifier, Follows, Unseen, Targets;
    var package := queue[0];
    QueuedAreFollowed(r, package, visited + {package});
    var next := queue[1..] + queued;
    assert forall q :: q in queue ==> q == package || q in queue[1..];
    assert forall q :: q in queue[1..] ==> q in queue;
    forall q | q in next ensures q in r.imports && Reachable(r, q) {
      if q in queued {
        ReachableStep(r, package, q);
        assert q in r.imports by {
          FollowedIsKnown(r, package, q);
        }
      }
    }
  }

  lemma FollowedIsKnown(r: Repository, package: string, q: string)
    requires Follows(r, package, q)
    ensures q in r.imports
  {
  }

  lemma Emptied(r: Repository, visited: set<string>)
    requires Frontier(r, [], visited)
    ensures forall p :: p in visited <==> Reachable(r, p)
  {
    hide IsVerifier, Follows;
    forall p | Reachable(r, p) ensures p in visited {
      var path :| PathFrom(r, path, p);
      ClosedHoldsPath(r, visited, path, p);
    }
  }

  lemma SortedRoots(queue: seq<string>)
    requires Distinct(queue)
    ensures StrictlySorted(SortBy(LexLess, queue))
    ensures forall q :: q in SortBy(LexLess, queue) <==> q in queue
  {
    var sorted := SortBy(LexLess, queue);
    SortKeeps(LexLess, queue);
    LexKeyOrders(LexLess, (q: string) => q, queue);
    SortAscends(LexLess, queue);
    DistinctMultiset(queue);
    DistinctOccurrences(sorted);
    forall i, j | 0 <= i < j < |sorted| ensures LexLess(sorted[i], sorted[j]) {
      LexTotal(sorted[i], sorted[j]);
    }
  }

  /** The sorted verifier packages the walk starts from. */
  method Roots(r: Repository) returns (queue: seq<string>)
    ensures RootsOf(r, queue)
  {
    hide IsVerifier, SortBy;
    queue := [];
    var rest := r.imports.Keys;
    while rest != {}
      invariant rest <= r.imports.Keys && Distinct(queue)
      invariant forall q :: q in queue <==> q in r.imports && q !in rest && IsVerifier(r, q)
      decreases |rest|
    {
      var package :| package in rest;
      if IsVerifier(r, package) {
        queue := queue + [package];
      }
      rest := rest - {package};
    }
    SortedRoots(queue);
    queue := SortBy(LexLess, queue);
  }

  /** Where the walk stands: the packages visited so far in order, and the queue
      that the mentions so far have left. */
  ghost predicate Walking(r: Repository, roots: seq<string>, walk: seq<string>, queue: seq<string>) {
    && Distinct(walk)
    && Firsts(roots + Mentions(r, walk)) == Firsts(walk + queue)
    && (forall k :: 0 <= k < |walk| ==> walk[k] in roots + Mentions(r, walk[..k]))
    && (forall q :: q in queue ==> q in roots + Mentions(r, walk))
  }

  lemma WalkStarts(r: Repository, roots: seq<string>)
    ensures Walking(r, roots, [], roots)
  {
    assert roots + Mentions(r, []) == roots == [] + roots;
  }

  lemma WalkSkips(r: Repository, roots: seq<string>, walk: seq<string>, queue: seq<string>)
    requires queue != [] && queue[0] in walk && Walking(r, roots, walk, queue)
    ensures Walking(r, roots, walk, queue[1..])
  {
    hide Mentions;
    var p, rest := queue[0], queue[1..];
    assert Firsts(walk + [p]) == Firsts(walk) by {
      assert (walk + [p])[..|walk|] == walk;
    }
    FirstsAppend(walk + [p], walk, rest);
    assert walk + [p] + rest == walk + queue;
  }

  lemma WalkVisits(r: Repository, roots: seq<string>, walk: seq<string>, queue: seq<string>, seen: set<string>)
    requires queue != [] && queue[0] !in walk && Walking(r, roots, walk, queue)
    requires forall x :: x in seen <==> x in walk + [queue[0]]
    ensures Walking(r, roots, walk + [queue[0]],
                    queue[1..] + Unseen(Targets(r, ImportsOf(r, queue[0])), seen))
  {
    hide Targets, ImportsOf, Firsts, Mentions;
    var p, rest := queue[0], queue[1..];
    var targets := Targets(r, ImportsOf(r, p));
    var queued, longer, mentioned := Unseen(targets, seen), walk + [p], roots + Mentions(r, walk);
    MentionsOneMore(r, walk, p);
    assert roots + Mentions(r, longer) == mentioned + targets;
    assert Firsts(roots + Mentions(r, longer)) == Firsts(longer + (rest + queued)) by {
      FirstsAppend(mentioned, walk + queue, targets);
      FirstsSkip(walk + queue, targets, seen);
      assert longer + (rest + queued) == walk + queue + queued;
    }
    MentionedBefore(r, roots, walk, p);
    UnseenAreTargets(targets, seen);
  }

  lemma MentionedBefore(r: Repository, roots: seq<string>, walk: seq<string>, p: string)
    requires forall k :: 0 <= k < |walk| ==> walk[k] in roots + Mentions(r, walk[..k])
    requires p in roots + Mentions(r, walk)
    ensures forall k :: 0 <= k < |walk + [p]| ==> (walk + [p])[k] in roots + Mentions(r, (walk + [p])[..k])
  {
    hide Mentions;
    var longer := walk + [p];
    forall k | 0 <= k < |longer| ensures longer[k] in roots + Mentions(r, longer[..k]) {
      if k < |walk| {
        assert longer[..k] == walk[..k] && longer[k] == walk[k];
      } else {
        assert longer[..k] == walk;
      }
    }
  }

  lemma MentionsOneMore(r: Repository, walk: seq<string>, p: string)
    ensures Mentions(r, walk + [p]) == Mentions(r, walk) + Targets(r, ImportsOf(r, p))
    ensures Reports(r, walk + [p]) == Reports(r, walk) + Report(r, p)
  {
    assert (walk + [p])[..|walk|] == walk;
  }

  lemma {:induction false} UnseenAreTargets(targets: seq<string>, seen: set<string>)
    ensures forall q :: q in Unseen(targets, seen) ==> q in targets
  {
    if targets != [] {
      UnseenAreTargets(targets[..|targets| - 1], seen);
    }
  }

  lemma WalkEnds(r: Repository, roots: seq<string>, walk: seq<string>)
    requires Walking(r, roots, walk, [])
    ensures BreadthFirst(r, roots, walk)
  {
    assert walk + [] == walk;
    FirstsOfDistinct(walk);
  }

  /** Reports each reachable package's findings once, package by package in
      breadth-first order from the sorted verifier packages, and ends although a
      package may be queued more than once. */
  method FindTransitiveVerifierViolations(r: Repository)
    returns (findings: seq<Finding>, ghost roots: seq<string>, ghost walk: seq<string>)
    ensures RootsOf(r, roots) && BreadthFirst(r, roots, walk) && Distinct(walk)
    ensures forall p :: p in walk <==> Reachable(r, p)
    ensures findings == Reports(r, walk)
    ensures forall f :: f in findings <==> exists p :: Reachable(r, p) && OwnFinding(r, p, f)
  {
    hide IsVerifier, Follows, Reachable, Frontier, OwnFinding, Walking, Mentions, Reports, Report, Targets, Unseen,
      BreadthFirst, RootsOf, Forbidden;
    var queue := Roots(r);
    roots, walk := queue, [];
    var seen: set<string> := {};
    findings := [];
    RootsReachable(r, queue);
    WalkStarts(r, roots);
    NothingReported(r);
    while queue != []
      invariant Frontier(r, queue, seen) && seen <= r.imports.Keys
      invariant Walking(r, roots, walk, queue) && findings == Reports(r, walk)
      invariant forall p :: p in seen <==> p in walk
      decreases |r.imports.Keys - seen|, |queue|
    {
      var package := queue[0];
      QueuedIsKnown(r, queue, seen);
      if package in seen {
        Skip(r, queue, seen);
        WalkSkips(r, roots, walk, queue);
        queue := queue[1..];
        continue;
      }
      var before := seen;
      seen := seen + {package};
      assert r.imports.Keys - seen < r.imports.Keys - before;
      FewerLeft(r.imports.Keys - seen, r.imports.Keys - before);
      var own := if package in r.capability then r.capability[package] else [];
      var found, queued := Scan(r, package, seen);
      Visit(r, queue, before, queued);
      WalkVisits(r, roots, walk, queue, seen);
      MentionsOneMore(r, walk, package);
      OneReport(r, package, findings, own, found);
      walk := walk + [package];
      findings := findings + own + found;
      queue := queue[1..] + queued;
    }
    Emptied(r, seen);
    WalkEnds(r, roots, walk);
    WalkDistinct(r, roots, walk);
    ReportMembers(r, walk);
  }

  lemma NothingReported(r: Repository)
    ensures Reports(r, []) == []
  {
  }

  lemma WalkDistinct(r: Repository, roots: seq<string>, walk: seq<string>)
    requires Walking(r, roots, walk, [])
    ensures Distinct(walk)
  {
  }

  lemma OneReport(r: Repository, package: string, findings: seq<Finding>, own: seq<Finding>, found: seq<Finding>)
    requires package in r.imports && own == (if package in r.capability then r.capability[package] else [])
    requires found == Forbidden(r.imports[package])
    ensures findings + own + found == findings + Report(r, package)
  {
  }

  lemma {:induction false} ReportMembers(r: Repository, walk: seq<string>)
    requires forall p :: p in walk ==> p in r.imports
    ensures forall f :: f in Reports(r, walk) <==> exists p :: p in walk && OwnFinding(r, p, f)
  {
    if walk != [] {
      var rest, p := walk[..|walk| - 1], walk[|walk| - 1];
      assert walk == rest + [p];
      ReportMembers(r, rest);
      ForbiddenMembers(r.imports[p]);
      assert forall f :: f in Report(r, p) <==> OwnFinding(r, p, f);
    }
  }

  lemma RootsReachable(r: Repository, queue: seq<string>)
    requires RootsOf(r, queue)
    ensures Frontier(r, queue, {})
  {
    hide IsVerifier, Follows, Reachable;
    forall q | q in queue ensures Reachable(r, q) {
      ReachableStart(r, q);
    }
  }

  lemma QueuedIsKnown(r: Repository, queue: seq<string>, visited: set<string>)
    requires queue != [] && Frontier(r, queue, visited)
    ensures queue[0] in r.imports
  {
  }

  lemma FewerLeft<T>(a: set<T>, b: set<T>)
    requires a < b
    ensures |a| < |b|
  {
    assert b == a + (b - a);
  }

  // ----- De-duplication -----

  /** First occurrences, in order. */
  function Firsts<T(==,!new)>(s: seq<T>): (u: seq<T>)
    ensures forall x :: x in u <==> x in s
  {
    if s == [] then []
    else
      var rest, last := s[..|s| - 1], s[|s| - 1];
      assert s == rest + [last];
      if last in rest then Firsts(rest) else Firsts(rest) + [last]
  }

  lemma {:induction false} FirstsAppend<T(!new)>(a: seq<T>, b: seq<T>, c: seq<T>)
    requires Firsts(a) == Firsts(b)
    ensures Firsts(a + c) == Firsts(b + c)
  {
    if c == [] {
      assert a + c == a && b + c == b;
    } else {
      var rest, last := c[..|c| - 1], c[|c| - 1];
      FirstsAppend(a, b, rest);
      assert (a + c)[..|a + c| - 1] == a + rest && (b + c)[..|b + c| - 1] == b + rest;
      assert last in a + rest <==> last in Firsts(a + rest);
      assert last in b + rest <==> last in Firsts(b + rest);
    }
  }

  lemma {:induction false} FirstsPrefix<T(!new)>(a: seq<T>, c: seq<T>)
    ensures Firsts(a) <= Firsts(a + c)
  {
    if c == [] {
      assert a + c == a;
    } else {
      var rest := c[..|c| - 1];
      FirstsPrefix(a, rest);
      assert (a + c)[..|a + c| - 1] == a + rest;
    }
  }

  lemma {:induction false} FirstsOfDistinct<T(!new)>(s: seq<T>)
    requires Distinct(s)
    ensures Firsts(s) == s
  {
    if s != [] {
      var rest, last := s[..|s| - 1], s[|s| - 1];
      FirstsOfDistinct(rest);
      assert s == rest + [last];
    }
  }

  lemma FirstsOneMore<T(!new)>(s: seq<T>, x: T)
    ensures Firsts(s + [x]) == if x in s then Firsts(s) else Firsts(s) + [x]
  {
    assert (s + [x])[..|s|] == s;
  }

  /** What has been seen may be left out of what follows. */
  lemma {:induction false} FirstsSkip(b: seq<string>, c: seq<string>, seen: set<string>)
    requires forall x :: x in seen ==> x in b
    ensures Firsts(b + c) == Firsts(b + Unseen(c, seen))
  {
    hide Firsts;
    if c != [] {
      var rest, last := c[..|c| - 1], c[|c| - 1];
      var kept := Unseen(rest, seen);
      FirstsSkip(b, rest, seen);
      FirstsOneMore(b + rest, last);
      FirstsOneMore(b + kept, last);
      assert b + c == b + rest + [last] && b + (kept + [last]) == b + kept + [last] && kept + [] == kept;
      assert last in b + rest <==> last in Firsts(b + rest);
      assert last in b + kept <==> last in Firsts(b + kept);
    }
  }

  /** No repeats, nothing lost, and whatever came first still comes first. */
  lemma {:induction false} FirstsKeepOrder<T(!new)>(s: seq<T>)
    ensures Distinct(Firsts(s))
    ensures forall i, j :: 0 <= i < j < |Firsts(s)| ==> FirstAt(s, Firsts(s)[i]) < FirstAt(s, Firsts(s)[j])
  {
    if s != [] {
      var rest, last := s[..|s| - 1], s[|s| - 1];
      assert s == rest + [last];
      FirstsKeepOrder(rest);
      forall x | x in rest ensures FirstAt(s, x) == FirstAt(rest, x) {
        FirstAtPrefix(rest, last, x);
      }
      if last !in rest {
        FirstAtEnd(rest, last);
        forall x | x in rest ensures FirstAt(s, x) < FirstAt(s, last) {
        }
      }
    }
  }

  /** Where an element first occurs, or the length when it does not. */
  function FirstAt<T(==)>(s: seq<T>, x: T): (n: nat)
    ensures n <= |s| && (n < |s| <==> x in s) && (n < |s| ==> s[n] == x)
  {
    if s == [] then 0 else if s[0] == x then 0 else 1 + FirstAt(s[1..], x)
  }

  lemma {:induction false} FirstAtPrefix<T(!new)>(rest: seq<T>, last: T, x: T)
    requires x in rest
    ensures FirstAt(rest + [last], x) == FirstAt(rest, x)
  {
    if rest[0] != x {
      assert (rest + [last])[1..] == rest[1..] + [last];
      FirstAtPrefix(rest[1..], last, x);
    }
  }

  lemma {:induction false} FirstAtEnd<T(!new)>(rest: seq<T>, last: T)
    requires last !in rest
    ensures FirstAt(rest + [last], last) == |rest|
  {
    if rest != [] {
      assert (rest + [last])[1..] == rest[1..] + [last];
      FirstAtEnd(rest[1..], last);
    }
  }

  method UniqueFindings(findings: seq<Finding>) returns (unique: seq<Finding>)
    ensures unique == Firsts(findings)
  {
    var seen: set<Finding> := {};
    unique := [];
    for i := 0 to |findings|
      invariant unique == Firsts(findings[..i])
      invariant forall f :: f in seen <==> f in findings[..i]
    {
      assert findings[..i + 1][..i] == findings[..i];
      if findings[i] in seen {
        continue;
      }
      seen := seen + {findings[i]};
      unique := unique + [findings[i]];
    }
    assert findings[..|findings|] == findings;
  }
}
