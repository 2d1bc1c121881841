/** Authorise-then-revalidate: every local proof, the intents they leave and the digest of the evidence. */
module Guard {
  import opened Common
  import opened Text
  import opened Cidr
  import opened Collections
  import opened Evidence
  import opened Firewall
  import opened FirewallProof

  // ----- Intents -----

  function InsertOf(r: FirewallRule): Intent { Intent(INSERT, TargetOf(r), OPERATOR, Some(r)) }

  /** One insert per absent rule, in key order. */
  function AbsentInserts(p: Pair, sshAbsent: bool, mongoAbsent: bool): seq<Intent> {
    (if sshAbsent then [InsertOf(p.ssh)] else []) + (if mongoAbsent then [InsertOf(p.mongo)] else [])
  }

  function NormalIntent(i: Intent): Intent {
    if i.firewall.Some? then i.(firewall := Some(Normalize(i.firewall.value))) else i
  }

  function IntentKey(i: Intent): string { TargetKey(i.target) }

  predicate IntentLess(a: Intent, b: Intent) { LexLess(IntentKey(a), IntentKey(b)) }

  /** The lookup tables of the intent check. */
  method TargetTable(targets: seq<Target>) returns (byKey: map<string, Target>)
    requires DistinctBy(TargetKey, targets)
    ensures Filed(TargetKey, targets, |targets|, byKey)
  {
    hide DistinctBy, Filed;
    byKey := map[];
    FileStart(TargetKey, targets);
    for i := 0 to |targets|
      invariant Filed(TargetKey, targets, i, byKey)
    {
      NotFiledYet(TargetKey, targets, i, byKey);
      FileOneMore(TargetKey, targets, i, byKey);
      byKey := byKey[targets[i].identity.canonicalKey := targets[i]];
    }
  }

  method RuleTable(ghost p: Pair, rules: seq<FirewallRule>) returns (byKey: map<string, FirewallRule>)
    requires BothRules(p, rules) && Key(p.ssh) != Key(p.mongo)
    ensures byKey == RulesByKey(p)
  {
    TwoInEitherOrder(rules, p.ssh, p.mongo);
    byKey := map[];
    for i := 0 to |rules|
      invariant i == 0 ==> byKey == map[]
      invariant i == 1 ==> byKey == map[Key(rules[0]) := rules[0]]
      invariant i == 2 ==> byKey == map[Key(rules[0]) := rules[0]][Key(rules[1]) := rules[1]]
    {
      byKey := byKey[rules[i].identity.canonicalKey := rules[i]];
    }
  }

  /** What the tables hold for a proved firewall pair. */
  ghost predicate Tables(g: Grammar, p: Pair, runID: string, a: bool, b: bool, targets: map<string, Target>,
                         rules: map<string, FirewallRule>)
  {
    && g.patterns.runID(runID)
    && TargetOk(g, runID, TargetOf(p.ssh)) && TargetOk(g, runID, TargetOf(p.mongo)) && Key(p.ssh) != Key(p.mongo)
    && targets.Keys == AbsentKeys(p, a, b)
    && (forall k :: k in targets ==> targets[k] in AbsentTargets(p, a, b) && TargetKey(targets[k]) == k)
    && rules == RulesByKey(p)
  }

  lemma TableEntry(g: Grammar, p: Pair, runID: string, a: bool, b: bool, targets: map<string, Target>,
                   rules: map<string, FirewallRule>, key: string)
    requires Tables(g, p, runID, a, b, targets, rules)
    ensures key in targets <==> (a && key == Key(p.ssh)) || (b && key == Key(p.mongo))
    ensures key in targets && key == Key(p.ssh) ==> targets[key] == TargetOf(p.ssh) && rules[key] == p.ssh
    ensures key in targets && key == Key(p.mongo) ==> targets[key] == TargetOf(p.mongo) && rules[key] == p.mongo
  {
    hide TargetOk;
  }

  /** One intent passes exactly when it inserts a required rule that is absent. */
  method CheckIntent(g: Grammar, intent: Intent, runID: string, targets: map<string, Target>,
                     rules: map<string, FirewallRule>, ghost p: Pair, ghost a: bool, ghost b: bool,
                     ghost cidrs: seq<string>, ghost projectID: string, ghost fingerprint: string) returns (ok: bool)
    requires PairOf(g, p, cidrs, runID, projectID, fingerprint) && Tables(g, p, runID, a, b, targets, rules)
    ensures ok <==> intent in AbsentInserts(p, a, b)
    ensures ok ==> NormalIntent(intent) == intent
  {
    hide PairOf, Tables, TargetOk, RuleAccepted, Normalize, EqualRules, SortBy, ValidIdentity, RequiredPair;
    PairFacts(g, p, cidrs, runID, projectID, fingerprint);
    InsertsAreSelectable(g, p, runID, a, b, targets, rules, intent);
    if intent.action != INSERT {
      return false;
    }
    if intent.role != OPERATOR {
      return false;
    }
    var selected := SelectTargets(g, runID, [intent.target]);
    if selected.None? {
      return false;
    }
    SortSmall(TargetLess, [intent.target]);
    var target := selected.value[0];
    var key := target.identity.canonicalKey;
    TableEntry(g, p, runID, a, b, targets, rules, key);
    if key !in targets {
      return false;
    }
    if target.identity != targets[key].identity || target.labels != targets[key].labels {
      return false;
    }
    if target.identity.service != COMPUTE || target.identity.kind != FIREWALLS {
      return false;
    }
    if intent.firewall.None? {
      return false;
    }
    if key !in rules {
      return false;
    }
    EqualToRequired(g, intent.firewall.value, rules[key], cidrs, runID, projectID, fingerprint);
    return EqualRules(intent.firewall.value, rules[key]);
  }

  lemma InsertMembers(p: Pair, a: bool, b: bool, intent: Intent)
    ensures intent in AbsentInserts(p, a, b) <==> (a && intent == InsertOf(p.ssh)) || (b && intent == InsertOf(p.mongo))
  {
    hide InsertOf;
  }

  lemma SelectableAlone(g: Grammar, runID: string, target: Target)
    requires g.patterns.runID(runID) && TargetOk(g, runID, target)
    ensures Selectable(g, runID, [target])
  {
    hide TargetOk;
  }

  /** An insert of an absent rule has a target that can be selected on its own. */
  lemma InsertsAreSelectable(g: Grammar, p: Pair, runID: string, a: bool, b: bool, targets: map<string, Target>,
                             rules: map<string, FirewallRule>, intent: Intent)
    requires Tables(g, p, runID, a, b, targets, rules)
    ensures intent in AbsentInserts(p, a, b) ==>
              Selectable(g, runID, [intent.target]) && intent.target.identity.service == COMPUTE &&
              intent.target.identity.kind == FIREWALLS
    ensures intent in AbsentInserts(p, a, b) <==> (a && intent == InsertOf(p.ssh)) || (b && intent == InsertOf(p.mongo))
    ensures Key(p.ssh) in rules && Key(p.mongo) in rules
  {
    hide ValidIdentity, RuleName, Selectable, AbsentInserts, AbsentTargets, AbsentKeys;
    InsertMembers(p, a, b, intent);
    SelectableAlone(g, runID, TargetOf(p.ssh));
    SelectableAlone(g, runID, TargetOf(p.mongo));
  }

  method ValidateMutationIntents(g: Grammar, operator: Principal, principal: Principal, runID: string,
                                 intents: seq<Intent>, rules: seq<FirewallRule>, selected: seq<Target>, ghost p: Pair,
                                 ghost a: bool, ghost b: bool, ghost cidrs: seq<string>, ghost projectID: string,
                                 ghost fingerprint: string) returns (validated: Option<seq<Intent>>)
    requires PairOf(g, p, cidrs, runID, projectID, fingerprint) && BothRules(p, rules)
    requires selected == AbsentTargets(p, a, b)
    ensures validated.Some? <==> principal == operator && multiset(intents) == multiset(AbsentInserts(p, a, b))
    ensures validated.Some? ==> validated.value == AbsentInserts(p, a, b)
  {
    hide PairOf, BothRules, AbsentTargets, AbsentInserts, Tables, SortBy, RulesByKey, TargetOk, Filed, DistinctBy;
    InsertSizes(p, a, b, intents);
    if |intents| != |selected| {
      return None;
    }
    if principal != operator {
      return None;
    }
    PairFacts(g, p, cidrs, runID, projectID, fingerprint);
    AbsentTargetsSelectable(g, p, cidrs, runID, projectID, fingerprint, a, b);
    var targetsByKey := TargetTable(selected);
    var firewallsByKey := RuleTable(p, rules);
    TablesReady(g, p, cidrs, runID, projectID, fingerprint, a, b, targetsByKey, firewallsByKey);
    assert |targetsByKey| == |selected| by {
      FiledSize(selected, targetsByKey);
    }
    validated := VetIntents(g, runID, intents, targetsByKey, firewallsByKey, p, a, b, cidrs, projectID, fingerprint);
  }

  lemma FiledSize(targets: seq<Target>, byKey: map<string, Target>)
    requires Filed(TargetKey, targets, |targets|, byKey)
    ensures |byKey| == |targets|
  {
  }

  /** The intents seen so far insert absent rules, each once. */
  ghost predicate Vetted(p: Pair, a: bool, b: bool, intents: seq<Intent>, i: nat, seen: set<string>) {
    && i <= |intents| && |seen| == i
    && (forall k :: 0 <= k < i ==> intents[k] in AbsentInserts(p, a, b))
    && DistinctBy(IntentKey, intents[..i])
    && (forall x :: x in seen <==> exists k :: 0 <= k < i && IntentKey(intents[k]) == x)
  }

  /** The loop over the intents and its closing size comparison. */
  method VetIntents(g: Grammar, runID: string, intents: seq<Intent>, targets: map<string, Target>,
                    rules: map<string, FirewallRule>, ghost p: Pair, ghost a: bool, ghost b: bool,
                    ghost cidrs: seq<string>, ghost projectID: string, ghost fingerprint: string)
    returns (validated: Option<seq<Intent>>)
    requires PairOf(g, p, cidrs, runID, projectID, fingerprint) && Tables(g, p, runID, a, b, targets, rules)
    requires |intents| == |targets| == |AbsentInserts(p, a, b)|
    ensures validated.Some? <==> multiset(intents) == multiset(AbsentInserts(p, a, b))
    ensures validated.Some? ==> validated.value == AbsentInserts(p, a, b)
  {
    hide PairOf, AbsentInserts, Tables, SortBy, Vetted, NormalIntent, DistinctBy;
    var seen: set<string> := {};
    var chosen: seq<Intent> := [];
    assert Vetted(p, a, b, intents, 0, {}) by {
      VettedStart(p, a, b, intents);
    }
    for i := 0 to |intents|
      invariant Vetted(p, a, b, intents, i, seen) && chosen == intents[..i]
    {
      var intent := intents[i];
      var ok := CheckIntent(g, intent, runID, targets, rules, p, a, b, cidrs, projectID, fingerprint);
      if !ok {
        assert intent in multiset(intents);
        return None;
      }
      VetOneMore(g, p, cidrs, runID, projectID, fingerprint, intents, i, a, b, seen);
      if intent.target.identity.canonicalKey in seen {
        return None;
      }
      seen := seen + {intent.target.identity.canonicalKey};
      chosen := chosen + [NormalIntent(intent)];
    }
    VettedAll(g, p, cidrs, runID, projectID, fingerprint, intents, a, b, seen);
    if |seen| != |targets| {
      return None;
    }
    assert chosen == intents;
    return Some(SortBy(IntentLess, chosen));
  }

  lemma VettedStart(p: Pair, a: bool, b: bool, intents: seq<Intent>)
    ensures Vetted(p, a, b, intents, 0, {})
  {
  }

  lemma VetOneMore(g: Grammar, p: Pair, cidrs: seq<string>, runID: string, projectID: string, fingerprint: string,
                   intents: seq<Intent>, i: nat, a: bool, b: bool, seen: set<string>)
    requires PairOf(g, p, cidrs, runID, projectID, fingerprint) && i < |intents|
    requires Vetted(p, a, b, intents, i, seen) && intents[i] in AbsentInserts(p, a, b)
    ensures if IntentKey(intents[i]) in seen then multiset(intents) != multiset(AbsentInserts(p, a, b))
            else Vetted(p, a, b, intents, i + 1, seen + {IntentKey(intents[i])})
  {
    hide PairOf, AbsentInserts, IntentKey;
    RepeatedIntent(g, p, cidrs, runID, projectID, fingerprint, intents, i, a, b);
    forall x ensures x in seen + {IntentKey(intents[i])} <==> exists k :: 0 <= k < i + 1 && IntentKey(intents[k]) == x {
      if x in seen {
        var k :| 0 <= k < i && IntentKey(intents[k]) == x;
      }
      assert IntentKey(intents[i]) == x ==> x in seen + {IntentKey(intents[i])};
    }
  }

  lemma VettedAll(g: Grammar, p: Pair, cidrs: seq<string>, runID: string, projectID: string, fingerprint: string,
                  intents: seq<Intent>, a: bool, b: bool, seen: set<string>)
    requires PairOf(g, p, cidrs, runID, projectID, fingerprint)
    requires Vetted(p, a, b, intents, |intents|, seen) && |intents| == |AbsentInserts(p, a, b)|
    ensures |seen| == |intents|
    ensures multiset(intents) == multiset(AbsentInserts(p, a, b))
    ensures SortBy(IntentLess, intents) == AbsentInserts(p, a, b)
  {
    hide PairOf, AbsentInserts, SortBy;
    assert intents[..|intents|] == intents;
    InsertsComplete(g, p, cidrs, runID, projectID, fingerprint, intents, a, b);
  }

  lemma InsertSizes(p: Pair, a: bool, b: bool, intents: seq<Intent>)
    ensures |AbsentInserts(p, a, b)| == |AbsentTargets(p, a, b)|
    ensures multiset(intents) == multiset(AbsentInserts(p, a, b)) ==> |intents| == |AbsentTargets(p, a, b)|
  {
    if multiset(intents) == multiset(AbsentInserts(p, a, b)) {
      ReorderKeepsElements(intents, AbsentInserts(p, a, b));
    }
  }

  lemma TablesReady(g: Grammar, p: Pair, cidrs: seq<string>, runID: string, projectID: string, fingerprint: string,
                    a: bool, b: bool, targets: map<string, Target>, rules: map<string, FirewallRule>)
    requires PairOf(g, p, cidrs, runID, projectID, fingerprint) && rules == RulesByKey(p)
    requires Filed(TargetKey, AbsentTargets(p, a, b), |AbsentTargets(p, a, b)|, targets)
    ensures Tables(g, p, runID, a, b, targets, rules)
  {
    hide PairOf, TargetOk, RulesByKey, AbsentTargets, AbsentKeys, SortBy, RuleAccepted, Normalize, ValidIdentity, Filed;
    PairTargets(g, p, cidrs, runID, projectID, fingerprint);
    PairFacts(g, p, cidrs, runID, projectID, fingerprint);
    AbsentTargetsSelectable(g, p, cidrs, runID, projectID, fingerprint, a, b);
    var want := AbsentTargets(p, a, b);
    forall k | k in targets ensures targets[k] in want && TargetKey(targets[k]) == k && k in TargetKeys(want) {
      FiledEntry(TargetKey, want, |want|, targets, k);
    }
    FiledAll(want, targets);
    assert targets.Keys == AbsentKeys(p, a, b);
  }

  lemma FiledAll(want: seq<Target>, targets: map<string, Target>)
    requires Filed(TargetKey, want, |want|, targets)
    ensures forall k :: k in TargetKeys(want) ==> k in targets
  {
    forall k | k in TargetKeys(want) ensures k in targets {
      var t :| t in want && TargetKey(t) == k;
      var j :| 0 <= j < |want| && want[j] == t;
    }
  }

  lemma InsertsOrdered(g: Grammar, p: Pair, cidrs: seq<string>, runID: string, projectID: string, fingerprint: string,
                       a: bool, b: bool)
    requires PairOf(g, p, cidrs, runID, projectID, fingerprint)
    ensures Orders(IntentLess, AbsentInserts(p, a, b)) && DistinctBy(IntentKey, AbsentInserts(p, a, b))
    ensures SortBy(IntentLess, AbsentInserts(p, a, b)) == AbsentInserts(p, a, b)
  {
    hide RequiredPair, PairAdmissible, LexLess, SortBy;
    KeysSortSSHFirst(projectID, runID, fingerprint);
    TwoInsertsOrdered(InsertOf(p.ssh), InsertOf(p.mongo), a, b);
  }

  lemma TwoInsertsOrdered(x: Intent, y: Intent, a: bool, b: bool)
    requires !LexLess(IntentKey(y), IntentKey(x)) && IntentKey(x) != IntentKey(y)
    ensures var s := (if a then [x] else []) + (if b then [y] else []);
            Orders(IntentLess, s) && DistinctBy(IntentKey, s) && SortBy(IntentLess, s) == s
  {
    hide LexLess, SortBy, IntentKey, Orders;
    var s := (if a then [x] else []) + (if b then [y] else []);
    assert s == if a && b then [x, y] else if a then [x] else if b then [y] else [];
    LexKeyOrders(IntentLess, IntentKey, s);
    SortTwo(IntentLess, x, y);
  }

  lemma RepeatedIntent(g: Grammar, p: Pair, cidrs: seq<string>, runID: string, projectID: string, fingerprint: string,
                       intents: seq<Intent>, i: nat, a: bool, b: bool)
    requires PairOf(g, p, cidrs, runID, projectID, fingerprint) && i < |intents| && DistinctBy(IntentKey, intents[..i])
    ensures (exists k :: 0 <= k < i && IntentKey(intents[k]) == IntentKey(intents[i])) ==>
              multiset(intents) != multiset(AbsentInserts(p, a, b))
    ensures (forall k :: 0 <= k < i ==> IntentKey(intents[k]) != IntentKey(intents[i])) ==>
              DistinctBy(IntentKey, intents[..i + 1])
  {
    hide PairOf, AbsentInserts, SortBy;
    InsertsOrdered(g, p, cidrs, runID, projectID, fingerprint, a, b);
    if multiset(intents) == multiset(AbsentInserts(p, a, b)) {
      DistinctByReordered(IntentKey, AbsentInserts(p, a, b), intents);
    }
    assert forall k :: 0 <= k < i ==> intents[..i][k] == intents[k];
  }

  /** Distinct absent inserts, as many as there are, are all of them; sorting lists them in key order. */
  lemma InsertsComplete(g: Grammar, p: Pair, cidrs: seq<string>, runID: string, projectID: string, fingerprint: string,
                        intents: seq<Intent>, a: bool, b: bool)
    requires PairOf(g, p, cidrs, runID, projectID, fingerprint)
    requires DistinctBy(IntentKey, intents) && |intents| == |AbsentInserts(p, a, b)|
    requires forall k :: 0 <= k < |intents| ==> intents[k] in AbsentInserts(p, a, b)
    ensures multiset(intents) == multiset(AbsentInserts(p, a, b))
    ensures SortBy(IntentLess, intents) == AbsentInserts(p, a, b)
  {
    hide PairOf, AbsentInserts, SortBy, LexLess;
    var want := AbsentInserts(p, a, b);
    InsertsOrdered(g, p, cidrs, runID, projectID, fingerprint, a, b);
    DistinctByIsDistinct(IntentKey, intents);
    DistinctByIsDistinct(IntentKey, want);
    DistinctCount(intents);
    DistinctCount(want);
    SubsetOfSameSize(Elements(intents), Elements(want));
    forall x ensures x in intents <==> x in want {
      assert x in Elements(intents) <==> x in Elements(want);
    }
    SameElementsReorder(intents, want);
    SortCanonical(IntentLess, want, intents);
  }
}
