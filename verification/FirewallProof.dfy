/** The whole firewall proof: rules, observations, targets and intents pin each other down. */
module FirewallProof {
  import opened Common
  import opened Text
  import opened Collections
  import opened Evidence
  import opened Firewall

  const INSERT := "compute.firewalls.insert"
  const OPERATOR := "operator"

  datatype Intent = Intent(action: string, target: Target, role: string, firewall: Option<FirewallRule>)

  // ----- The two required rules -----

  /** The two rules of a run with their admission; everything later is about this pair. */
  datatype Pair = Pair(ssh: FirewallRule, mongo: FirewallRule)

  function Key(r: FirewallRule): string { r.identity.canonicalKey }

  function RequiredPair(projectID: string, runID: string, fingerprint: string): Pair
    requires |fingerprint| == 64
  {
    Pair(RequiredRule(projectID, runID, fingerprint, IAP_SSH),
         RequiredRule(projectID, runID, fingerprint, INTERNAL_MONGO))
  }

  predicate PairAdmissible(g: Grammar, cidrs: seq<string>, runID: string, projectID: string, fingerprint: string) {
    && Admissible(g, cidrs, runID, projectID, fingerprint, IAP_SSH)
    && Admissible(g, cidrs, runID, projectID, fingerprint, INTERNAL_MONGO)
  }

  /** The two run firewall names sort SSH first. */
  lemma NamesSortSSHFirst(runID: string)
    ensures LexLess(RuleName(runID, IAP_SSH), RuleName(runID, INTERNAL_MONGO))
  {
    assert LexLess(IAP_SSH, MONGO_SUFFIX) by {
      assert IAP_SSH[1] < MONGO_SUFFIX[1];
      assert LexLess(IAP_SSH[1..], MONGO_SUFFIX[1..]);
    }
    LexCommonHead("-", IAP_SSH, MONGO_SUFFIX);
    LexCommonHead(runID, "-" + IAP_SSH, "-" + MONGO_SUFFIX);
    LexCommonHead(TEST_PREFIX, runID + ("-" + IAP_SSH), runID + ("-" + MONGO_SUFFIX));
  }

  function KeyHead(project: string): string {
    KEY_PREFIX + (project + ("|" + (COMPUTE + ("|" + ("global" + ("|" + (FIREWALLS + "|")))))))
  }

  lemma GlobalKey(project: string, name: string)
    ensures CanonicalTargetKey(GlobalIdentity(project, FIREWALLS, name)) == KeyHead(project) + name
  {
    var i := GlobalIdentity(project, FIREWALLS, name);
    KeyShape(i);
    assert Rest(i) == FIREWALLS + ("|" + name);
    assert "global" + ("|" + (FIREWALLS + ("|" + name))) == ("global" + ("|" + (FIREWALLS + "|"))) + name;
    var tail := "global" + ("|" + (FIREWALLS + "|"));
    assert COMPUTE + ("|" + (tail + name)) == (COMPUTE + ("|" + tail)) + name;
    assert project + ("|" + ((COMPUTE + ("|" + tail)) + name)) == (project + ("|" + (COMPUTE + ("|" + tail)))) + name;
    assert KEY_PREFIX + ((project + ("|" + (COMPUTE + ("|" + tail)))) + name) == KeyHead(project) + name;
  }

  /** So do their canonical keys, which therefore differ. */
  lemma KeysSortSSHFirst(projectID: string, runID: string, fingerprint: string)
    requires |fingerprint| == 64
    ensures var p := RequiredPair(projectID, runID, fingerprint);
            LexLess(Key(p.ssh), Key(p.mongo)) && !LexLess(Key(p.mongo), Key(p.ssh)) && Key(p.ssh) != Key(p.mongo)
  {
    hide LexLess, CanonicalTargetKey, RuleName, KeyHead, Description, NodeTag;
    NamesSortSSHFirst(runID);
    GlobalKey(projectID, RuleName(runID, IAP_SSH));
    GlobalKey(projectID, RuleName(runID, INTERNAL_MONGO));
    LexCommonHead(KeyHead(projectID), RuleName(runID, IAP_SSH), RuleName(runID, INTERNAL_MONGO));
    var p := RequiredPair(projectID, runID, fingerprint);
    KeyIgnoresKey(projectID, RuleName(runID, IAP_SSH));
    KeyIgnoresKey(projectID, RuleName(runID, INTERNAL_MONGO));
    LexAsymmetric(Key(p.ssh), Key(p.mongo));
    LexIrreflexive(Key(p.ssh));
  }

  lemma KeyIgnoresKey(project: string, name: string)
    ensures GlobalIdentity(project, FIREWALLS, name).canonicalKey == CanonicalTargetKey(GlobalIdentity(project, FIREWALLS, name))
  {
  }

  // ----- Rules -----

  predicate BothRules(p: Pair, rules: seq<FirewallRule>) {
    multiset(rules) == multiset([p.ssh, p.mongo])
  }

  function RulesByKey(p: Pair): map<string, FirewallRule> {
    map[Key(p.ssh) := p.ssh, Key(p.mongo) := p.mongo]
  }

  lemma TwoInEitherOrder<T>(s: seq<T>, x: T, y: T)
    requires x != y
    ensures multiset(s) == multiset([x, y]) <==> s == [x, y] || s == [y, x]
  {
    assert multiset([x, y]) == multiset{x, y} == multiset([y, x]);
    if multiset(s) == multiset([x, y]) {
      assert |s| == |multiset(s)| == 2;
      assert s == [s[0], s[1]];
      assert s[0] in multiset(s) && s[1] in multiset(s);
      assert multiset(s)[x] == 1 && multiset(s)[y] == 1;
    }
  }

  /** Accepted rules, pairwise of different purposes, recorded under their keys. */
  ghost predicate Collected(g: Grammar, rules: seq<FirewallRule>, i: nat, cidrs: seq<string>, runID: string,
                            projectID: string, fingerprint: string, byKey: map<string, FirewallRule>)
  {
    && i <= |rules|
    && (forall k :: 0 <= k < i ==> RuleAccepted(g, rules[k], cidrs, runID, projectID, fingerprint))
    && (forall j, k :: 0 <= j < k < i ==> rules[j].purpose != rules[k].purpose)
    && (forall x :: x in byKey ==> exists k :: 0 <= k < i && Key(rules[k]) == x)
    && (forall k :: 0 <= k < i ==> Key(rules[k]) in byKey && byKey[Key(rules[k])] == rules[k])
  }

  lemma CollectOneMore(g: Grammar, rules: seq<FirewallRule>, i: nat, cidrs: seq<string>, runID: string,
                       projectID: string, fingerprint: string, byKey: map<string, FirewallRule>)
    requires |fingerprint| == 64 && i < |rules|
    requires Collected(g, rules, i, cidrs, runID, projectID, fingerprint, byKey)
    requires RuleAccepted(g, rules[i], cidrs, runID, projectID, fingerprint)
    requires forall k :: 0 <= k < i ==> rules[k].purpose != rules[i].purpose
    ensures Key(rules[i]) !in byKey
    ensures Collected(g, rules, i + 1, cidrs, runID, projectID, fingerprint, byKey[Key(rules[i]) := Normalize(rules[i])])
  {
    hide RuleAccepted, Normalize, RequiredPair, Admissible, Key;
    KeysSortSSHFirst(projectID, runID, fingerprint);
    AcceptedIsPart(g, rules[i], cidrs, runID, projectID, fingerprint);
    forall k | 0 <= k < i ensures Key(rules[k]) != Key(rules[i]) {
      AcceptedIsPart(g, rules[k], cidrs, runID, projectID, fingerprint);
    }
    var more := byKey[Key(rules[i]) := Normalize(rules[i])];
    forall x | x in more ensures exists k :: 0 <= k < i + 1 && Key(rules[k]) == x {
      if x in byKey {
        var k :| 0 <= k < i && Key(rules[k]) == x;
      } else {
        assert Key(rules[i]) == x;
      }
    }
  }

  /** Two collected rules are the pair. */
  lemma CollectedIsPair(g: Grammar, rules: seq<FirewallRule>, cidrs: seq<string>, runID: string, projectID: string,
                        fingerprint: string, byKey: map<string, FirewallRule>)
    requires |fingerprint| == 64 && |rules| == 2
    requires Collected(g, rules, 2, cidrs, runID, projectID, fingerprint, byKey)
    ensures RulesProved(g, rules, cidrs, runID, projectID, fingerprint)
    ensures byKey == RulesByKey(RequiredPair(projectID, runID, fingerprint))
    ensures exists k :: 0 <= k < 2 && rules[k].purpose == IAP_SSH
    ensures exists k :: 0 <= k < 2 && rules[k].purpose == INTERNAL_MONGO
  {
    hide RuleAccepted, RequiredPair, Admissible, BothRules, RulesByKey, LexLess;
    var p := RequiredPair(projectID, runID, fingerprint);
    KeysSortSSHFirst(projectID, runID, fingerprint);
    PurposesOfPair(projectID, runID, fingerprint);
    AcceptedIsPart(g, rules[0], cidrs, runID, projectID, fingerprint);
    AcceptedIsPart(g, rules[1], cidrs, runID, projectID, fingerprint);
    assert rules[0].purpose != rules[1].purpose;
    TwoAreThePair(p, rules, byKey);
    assert PairAdmissible(g, cidrs, runID, projectID, fingerprint) by {
      assert rules[0].purpose == IAP_SSH || rules[1].purpose == IAP_SSH;
    }
  }

  lemma TwoAreThePair(p: Pair, rules: seq<FirewallRule>, byKey: map<string, FirewallRule>)
    requires |rules| == 2 && Known(rules[0].purpose) && Known(rules[1].purpose) && rules[0].purpose != rules[1].purpose
    requires rules[0] == Required(p, rules[0].purpose) && rules[1] == Required(p, rules[1].purpose)
    requires Key(p.ssh) != Key(p.mongo)
    requires forall x :: x in byKey ==> x == Key(rules[0]) || x == Key(rules[1])
    requires Key(rules[0]) in byKey && byKey[Key(rules[0])] == rules[0]
    requires Key(rules[1]) in byKey && byKey[Key(rules[1])] == rules[1]
    ensures BothRules(p, rules) && byKey == RulesByKey(p)
    ensures exists k :: 0 <= k < 2 && rules[k].purpose == IAP_SSH
    ensures exists k :: 0 <= k < 2 && rules[k].purpose == INTERNAL_MONGO
  {
    hide Key;
    if rules[0].purpose == IAP_SSH {
      assert rules == [p.ssh, p.mongo];
    } else {
      assert rules == [p.mongo, p.ssh];
    }
    TwoInEitherOrder(rules, p.ssh, p.mongo);
    TwoEntries(byKey, Key(rules[0]), rules[0], Key(rules[1]), rules[1]);
  }

  lemma TwoEntries<K, V>(m: map<K, V>, k0: K, v0: V, k1: K, v1: V)
    requires k0 != k1 && k0 in m && k1 in m && m[k0] == v0 && m[k1] == v1
    requires forall k :: k in m ==> k == k0 || k == k1
    ensures m == map[k0 := v0, k1 := v1] == map[k1 := v1, k0 := v0]
  {
  }

  lemma PairIsCollectable(g: Grammar, rules: seq<FirewallRule>, cidrs: seq<string>, runID: string, projectID: string,
                          fingerprint: string)
    requires |fingerprint| == 64 && |rules| == 2 && RulesProved(g, rules, cidrs, runID, projectID, fingerprint)
    ensures RuleAccepted(g, rules[0], cidrs, runID, projectID, fingerprint)
    ensures RuleAccepted(g, rules[1], cidrs, runID, projectID, fingerprint)
    ensures rules[0].purpose != rules[1].purpose
  {
    hide RuleAccepted, RequiredPair, Admissible;
    var p := RequiredPair(projectID, runID, fingerprint);
    PurposesOfPair(projectID, runID, fingerprint);
    TwoInEitherOrder(rules, p.ssh, p.mongo);
    AcceptedIsPart(g, rules[0], cidrs, runID, projectID, fingerprint);
    AcceptedIsPart(g, rules[1], cidrs, runID, projectID, fingerprint);
  }

  predicate RulesProved(g: Grammar, rules: seq<FirewallRule>, cidrs: seq<string>, runID: string, projectID: string,
                        fingerprint: string)
    requires |fingerprint| == 64
  {
    PairAdmissible(g, cidrs, runID, projectID, fingerprint) && BothRules(RequiredPair(projectID, runID, fingerprint), rules)
  }

  /** Two rules are accepted exactly when they are the required pair, in either order. */
  method CheckRules(g: Grammar, rules: seq<FirewallRule>, cidrs: seq<string>, runID: string, projectID: string,
                    fingerprint: string) returns (ok: bool, rulesByKey: map<string, FirewallRule>)
    requires |rules| == 2 && |fingerprint| == 64
    ensures ok <==> RulesProved(g, rules, cidrs, runID, projectID, fingerprint)
    ensures ok ==> rulesByKey == RulesByKey(RequiredPair(projectID, runID, fingerprint))
  {
    hide RuleAccepted, RequiredPair, Normalize, RulesProved, RulesByKey, Collected;
    assert RulesProved(g, rules, cidrs, runID, projectID, fingerprint) ==>
           (RuleAccepted(g, rules[0], cidrs, runID, projectID, fingerprint) &&
            RuleAccepted(g, rules[1], cidrs, runID, projectID, fingerprint) && rules[0].purpose != rules[1].purpose) by {
      if RulesProved(g, rules, cidrs, runID, projectID, fingerprint) {
        PairIsCollectable(g, rules, cidrs, runID, projectID, fingerprint);
      }
    }
    var seen: set<string> := {};
    rulesByKey := map[];
    CollectedStart(g, rules, cidrs, runID, projectID, fingerprint);
    for i := 0 to |rules|
      invariant Collected(g, rules, i, cidrs, runID, projectID, fingerprint, rulesByKey)
      invariant forall x :: x in seen <==> exists k :: 0 <= k < i && rules[k].purpose == x
    {
      var rule := rules[i];
      if rule.purpose in seen {
        return false, map[];
      }
      seen := seen + {rule.purpose};
      if !RuleAccepted(g, rule, cidrs, runID, projectID, fingerprint) {
        return false, map[];
      }
      CollectOneMore(g, rules, i, cidrs, runID, projectID, fingerprint, rulesByKey);
      if rule.identity.canonicalKey in rulesByKey {
        return false, map[];
      }
      rulesByKey := rulesByKey[rule.identity.canonicalKey := Normalize(rule)];
    }
    CollectedIsPair(g, rules, cidrs, runID, projectID, fingerprint, rulesByKey);
    if IAP_SSH !in seen {
      return false, map[];
    }
    if INTERNAL_MONGO !in seen {
      return false, map[];
    }
    ok := true;
  }

  lemma CollectedStart(g: Grammar, rules: seq<FirewallRule>, cidrs: seq<string>, runID: string, projectID: string,
                       fingerprint: string)
    ensures Collected(g, rules, 0, cidrs, runID, projectID, fingerprint, map[])
  {
  }

  predicate Known(purpose: string) {
    purpose == IAP_SSH || purpose == INTERNAL_MONGO
  }

  function Required(p: Pair, purpose: string): FirewallRule {
    if purpose == IAP_SSH then p.ssh else p.mongo
  }

  lemma PurposesOfPair(projectID: string, runID: string, fingerprint: string)
    requires |fingerprint| == 64
    ensures var p := RequiredPair(projectID, runID, fingerprint);
            p.ssh.purpose == IAP_SSH && p.mongo.purpose == INTERNAL_MONGO
  {
  }

  lemma AcceptedIsPart(g: Grammar, rule: FirewallRule, cidrs: seq<string>, runID: string, projectID: string,
                       fingerprint: string)
    requires |fingerprint| == 64
    ensures RuleAccepted(g, rule, cidrs, runID, projectID, fingerprint) <==>
            && Known(rule.purpose) && Admissible(g, cidrs, runID, projectID, fingerprint, rule.purpose)
            && rule == Required(RequiredPair(projectID, runID, fingerprint), rule.purpose)
    ensures RuleAccepted(g, rule, cidrs, runID, projectID, fingerprint) ==> Normalize(rule) == rule
  {
    hide RuleAccepted, Normalize, Description, RuleName, NodeTag, GlobalIdentity, ProductionCIDRs, SourceDisjoint;
    AcceptedIsRequired(g, rule, cidrs, runID, projectID, fingerprint);
    if Known(rule.purpose) && rule == Required(RequiredPair(projectID, runID, fingerprint), rule.purpose) {
      SingleIsNormal(rule);
    }
  }

  // ----- Observations -----

  /** The observation of a required rule: confirmed absent, or present exactly as required. */
  function Observed(r: FirewallRule, absent: bool): Observation {
    if absent then Observation(r.identity, Absent, None) else Observation(r.identity, Present, Some(r))
  }

  predicate BothObserved(p: Pair, observations: seq<Observation>, sshAbsent: bool, mongoAbsent: bool) {
    multiset(observations) == multiset([Observed(p.ssh, sshAbsent), Observed(p.mongo, mongoAbsent)])
  }

  function AbsentKeys(p: Pair, sshAbsent: bool, mongoAbsent: bool): set<string> {
    (if sshAbsent then {Key(p.ssh)} else {}) + (if mongoAbsent then {Key(p.mongo)} else {})
  }

  /** The pair of an admissible run. */
  ghost predicate PairOf(g: Grammar, p: Pair, cidrs: seq<string>, runID: string, projectID: string, fingerprint: string) {
    |fingerprint| == 64 && p == RequiredPair(projectID, runID, fingerprint) &&
    PairAdmissible(g, cidrs, runID, projectID, fingerprint)
  }

  lemma PairFacts(g: Grammar, p: Pair, cidrs: seq<string>, runID: string, projectID: string, fingerprint: string)
    requires PairOf(g, p, cidrs, runID, projectID, fingerprint)
    ensures Key(p.ssh) != Key(p.mongo)
    ensures ValidIdentity(p.ssh.identity) && ValidIdentity(p.mongo.identity)
    ensures RuleAccepted(g, p.ssh, cidrs, runID, projectID, fingerprint) && Normalize(p.ssh) == p.ssh
    ensures RuleAccepted(g, p.mongo, cidrs, runID, projectID, fingerprint) && Normalize(p.mongo) == p.mongo
  {
    hide RuleAccepted, Normalize, RuleName, Description, NodeTag, GlobalIdentity, CanonicalTargetKey;
    KeysSortSSHFirst(projectID, runID, fingerprint);
    PurposesOfPair(projectID, runID, fingerprint);
    AcceptedIsPart(g, p.ssh, cidrs, runID, projectID, fingerprint);
    AcceptedIsPart(g, p.mongo, cidrs, runID, projectID, fingerprint);
  }

  /** A rule with the normal form of a required rule is that rule. */
  lemma EqualToRequired(g: Grammar, r: FirewallRule, want: FirewallRule, cidrs: seq<string>, runID: string,
                        projectID: string, fingerprint: string)
    requires RuleAccepted(g, want, cidrs, runID, projectID, fingerprint) && Normalize(want) == want
    ensures EqualRules(r, want) <==> r == want
  {
    hide Normalize;
    if EqualRules(r, want) {
      AcceptedIsRequired(g, want, cidrs, runID, projectID, fingerprint);
      assert Single(want) by {
        hide RuleAccepted, RuleName, Description, NodeTag, GlobalIdentity;
      }
      NormalizeSingle(r);
    }
  }

  /** One observation against the rule its key selects. */
  method CheckObservation(g: Grammar, o: Observation, rulesByKey: map<string, FirewallRule>, cidrs: seq<string>,
                          runID: string, projectID: string, fingerprint: string, ghost p: Pair)
    returns (state: Option<bool>)
    requires PairOf(g, p, cidrs, runID, projectID, fingerprint) && rulesByKey == RulesByKey(p)
    ensures state.Some? ==>
              o == Observed(p.ssh, state.value) || o == Observed(p.mongo, state.value)
    ensures state.None? ==>
              forall absent :: o != Observed(p.ssh, absent) && o != Observed(p.mongo, absent)
  {
    hide RuleAccepted, Normalize, PairOf, RequiredPair, ValidIdentity, EqualRules;
    PairFacts(g, p, cidrs, runID, projectID, fingerprint);
    if !ValidIdentity(o.identity) {
      return None;
    }
    if o.identity.canonicalKey !in rulesByKey {
      return None;
    }
    var desired := rulesByKey[o.identity.canonicalKey];
    if o.identity != desired.identity {
      return None;
    }
    match o.state
    case Absent =>
      if o.presentRule.Some? {
        return None;
      }
      return Some(true);
    case Present =>
      if o.presentRule.None? {
        return None;
      }
      EqualToRequired(g, o.presentRule.value, desired, cidrs, runID, projectID, fingerprint);
      if !RuleAccepted(g, o.presentRule.value, cidrs, runID, projectID, fingerprint) {
        return None;
      }
      if !EqualRules(o.presentRule.value, desired) {
        return None;
      }
      return Some(false);
    case OtherState(_) =>
      return None;
  }

  /** Observations of the pair under different keys, with the absent ones gathered. */
  ghost predicate Watched(p: Pair, observations: seq<Observation>, i: nat, states: seq<bool>, observed: set<string>,
                          absent: set<string>)
  {
    && i <= |observations| && |states| == i
    && (forall k :: 0 <= k < i ==>
          observations[k] == Observed(p.ssh, states[k]) || observations[k] == Observed(p.mongo, states[k]))
    && (forall j, k :: 0 <= j < k < i ==>
          observations[j].identity.canonicalKey != observations[k].identity.canonicalKey)
    && (forall x :: x in observed <==> exists k :: 0 <= k < i && observations[k].identity.canonicalKey == x)
    && (forall x :: x in absent <==>
          exists k :: 0 <= k < i && states[k] && observations[k].identity.canonicalKey == x)
  }

  lemma WatchOneMore(p: Pair, observations: seq<Observation>, i: nat, states: seq<bool>, observed: set<string>,
                     absent: set<string>, state: bool)
    requires i < |observations| && Watched(p, observations, i, states, observed, absent)
    requires observations[i] == Observed(p.ssh, state) || observations[i] == Observed(p.mongo, state)
    requires observations[i].identity.canonicalKey !in observed
    ensures var key := observations[i].identity.canonicalKey;
            Watched(p, observations, i + 1, states + [state], observed + {key}, if state then absent + {key} else absent)
  {
    var key := observations[i].identity.canonicalKey;
    var moreStates := states + [state];
    var more := if state then absent + {key} else absent;
    assert forall k :: 0 <= k < i ==> moreStates[k] == states[k];
    assert moreStates[i] == state;
    forall x ensures x in more <==>
        exists k :: 0 <= k < i + 1 && moreStates[k] && observations[k].identity.canonicalKey == x {
      if x in absent {
        var k :| 0 <= k < i && states[k] && observations[k].identity.canonicalKey == x;
        assert moreStates[k];
      }
    }
    forall x ensures x in observed + {key} <==>
        exists k :: 0 <= k < i + 1 && observations[k].identity.canonicalKey == x {
      if x in observed {
        var k :| 0 <= k < i && observations[k].identity.canonicalKey == x;
      }
    }
  }

  /** What two watched observations have put into the two key sets. */
  lemma WatchedKeys(p: Pair, observations: seq<Observation>, states: seq<bool>, observed: set<string>,
                    absent: set<string>)
    requires |observations| == 2 && Watched(p, observations, 2, states, observed, absent)
    ensures var k, l := observations[0].identity.canonicalKey, observations[1].identity.canonicalKey;
            && |states| == 2 && k != l && observed == {k, l}
            && absent == (if states[0] then {k} else {}) + (if states[1] then {l} else {})
    ensures observations[0] == Observed(p.ssh, states[0]) || observations[0] == Observed(p.mongo, states[0])
    ensures observations[1] == Observed(p.ssh, states[1]) || observations[1] == Observed(p.mongo, states[1])
  {
    hide Observed;
    var k, l := observations[0].identity.canonicalKey, observations[1].identity.canonicalKey;
    assert k in observed && l in observed;
    assert states[0] ==> k in absent;
    assert states[1] ==> l in absent;
  }

  lemma ObservedKeys(p: Pair)
    ensures forall absent :: Observed(p.ssh, absent).identity.canonicalKey == Key(p.ssh)
    ensures forall absent :: Observed(p.mongo, absent).identity.canonicalKey == Key(p.mongo)
  {
  }

  /** Two watched observations are one of each rule. */
  lemma WatchedBoth(p: Pair, observations: seq<Observation>, states: seq<bool>, observed: set<string>,
                    absent: set<string>)
    requires |observations| == 2 && Key(p.ssh) != Key(p.mongo)
    requires Watched(p, observations, 2, states, observed, absent)
    ensures observed == {Key(p.ssh), Key(p.mongo)}
    ensures var sshFirst := observations[0].identity.canonicalKey == Key(p.ssh);
            var a, b := if sshFirst then states[0] else states[1], if sshFirst then states[1] else states[0];
            BothObserved(p, observations, a, b) && absent == AbsentKeys(p, a, b)
  {
    hide Watched, Observed, BothObserved;
    WatchedKeys(p, observations, states, observed, absent);
    ObservedKeys(p);
    if observations[0].identity.canonicalKey == Key(p.ssh) {
      BothInOrder(p, observations, states[0], states[1]);
    } else {
      BothInOrder(p, observations, states[1], states[0]);
    }
  }

  lemma BothInOrder(p: Pair, observations: seq<Observation>, a: bool, b: bool)
    requires |observations| == 2
    requires (observations[0] == Observed(p.ssh, a) && observations[1] == Observed(p.mongo, b)) ||
             (observations[1] == Observed(p.ssh, a) && observations[0] == Observed(p.mongo, b))
    ensures BothObserved(p, observations, a, b)
  {
    hide Observed;
    var x, y := Observed(p.ssh, a), Observed(p.mongo, b);
    assert observations == [x, y] || observations == [y, x];
    assert multiset([x, y]) == multiset{x, y} == multiset([y, x]);
  }

  lemma ObservedOrder(p: Pair, observations: seq<Observation>, a: bool, b: bool)
    requires Key(p.ssh) != Key(p.mongo) && BothObserved(p, observations, a, b)
    ensures observations == [Observed(p.ssh, a), Observed(p.mongo, b)] ||
            observations == [Observed(p.mongo, b), Observed(p.ssh, a)]
  {
    TwoInEitherOrder(observations, Observed(p.ssh, a), Observed(p.mongo, b));
  }

  /** What was observed determines the two states. */
  lemma ObservedStates(p: Pair, observations: seq<Observation>, a: bool, b: bool, c: bool, d: bool)
    requires Key(p.ssh) != Key(p.mongo)
    requires BothObserved(p, observations, a, b) && BothObserved(p, observations, c, d)
    ensures a == c && b == d
  {
    ObservedOrder(p, observations, a, b);
    ObservedOrder(p, observations, c, d);
  }

  /** The observations are one per required rule and the selected keys are the absent ones. */
  ghost predicate Selects(p: Pair, observations: seq<Observation>, targetKeys: set<string>) {
    exists a: bool, b: bool :: BothObserved(p, observations, a, b) && targetKeys == AbsentKeys(p, a, b)
  }

  method CheckObservations(g: Grammar, observations: seq<Observation>, rulesByKey: map<string, FirewallRule>,
                           targetKeys: set<string>, cidrs: seq<string>, runID: string, projectID: string,
                           fingerprint: string, ghost p: Pair) returns (ok: bool)
    requires PairOf(g, p, cidrs, runID, projectID, fingerprint) && rulesByKey == RulesByKey(p)
    requires |observations| == 2
    ensures ok <==> Selects(p, observations, targetKeys)
  {
    hide PairOf, BothObserved, Watched, RulesByKey, RequiredPair, AbsentKeys, Observed, Selects, RuleAccepted,
      Normalize, ValidIdentity;
    PairFacts(g, p, cidrs, runID, projectID, fingerprint);
    var observed: set<string> := {};
    var absent: set<string> := {};
    ghost var states: seq<bool> := [];
    WatchStart(p, observations);
    for i := 0 to |observations|
      invariant Watched(p, observations, i, states, observed, absent)
    {
      var o := observations[i];
      var state := CheckObservation(g, o, rulesByKey, cidrs, runID, projectID, fingerprint, p);
      if state.None? {
        StrangeObservation(p, observations, i, targetKeys);
        return false;
      }
      WatchedKey(p, observations, i, states, observed, absent, targetKeys);
      if o.identity.canonicalKey in observed {
        return false;
      }
      WatchOneMore(p, observations, i, states, observed, absent, state.value);
      states := states + [state.value];
      observed := observed + {o.identity.canonicalKey};
      if state.value {
        absent := absent + {o.identity.canonicalKey};
      }
    }
    WatchedBoth(p, observations, states, observed, absent);
    SelectedAreAbsent(p, observations, states, observed, absent, targetKeys);
    RulesByKeySize(p);
    if |observed| != |rulesByKey| || |targetKeys| != |absent| {
      return false;
    }
    return absent <= targetKeys;
  }

  lemma WatchStart(p: Pair, observations: seq<Observation>)
    ensures Watched(p, observations, 0, [], {}, {})
  {
  }

  lemma RulesByKeySize(p: Pair)
    requires Key(p.ssh) != Key(p.mongo)
    ensures |RulesByKey(p)| == 2 == |{Key(p.ssh), Key(p.mongo)}|
  {
    assert RulesByKey(p).Keys == {Key(p.ssh), Key(p.mongo)};
  }

  lemma StrangeObservation(p: Pair, observations: seq<Observation>, i: nat, targetKeys: set<string>)
    requires i < |observations|
    requires forall absent :: observations[i] != Observed(p.ssh, absent) && observations[i] != Observed(p.mongo, absent)
    ensures !Selects(p, observations, targetKeys)
  {
    assert observations[i] in multiset(observations);
  }

  lemma WatchedKey(p: Pair, observations: seq<Observation>, i: nat, states: seq<bool>, observed: set<string>,
                   absent: set<string>, targetKeys: set<string>)
    requires i < |observations| == 2 && Watched(p, observations, i, states, observed, absent)
    requires Key(p.ssh) != Key(p.mongo)
    ensures observations[i].identity.canonicalKey in observed ==> !Selects(p, observations, targetKeys)
  {
    hide BothObserved;
    if observations[i].identity.canonicalKey in observed && Selects(p, observations, targetKeys) {
      var a: bool, b: bool :| BothObserved(p, observations, a, b) && targetKeys == AbsentKeys(p, a, b);
      ObservedOrder(p, observations, a, b);
      assert false;
    }
  }

  lemma SelectedAreAbsent(p: Pair, observations: seq<Observation>, states: seq<bool>, observed: set<string>,
                          absent: set<string>, targetKeys: set<string>)
    requires |observations| == 2 && Key(p.ssh) != Key(p.mongo)
    requires Watched(p, observations, 2, states, observed, absent)
    ensures Selects(p, observations, targetKeys) <==> |targetKeys| == |absent| && absent <= targetKeys
  {
    hide Watched, BothObserved, AbsentKeys;
    WatchedSize(p, observations, states, observed, absent);
    WatchedBoth(p, observations, states, observed, absent);
    if |targetKeys| == |absent| && absent <= targetKeys {
      SubsetOfSameSize(absent, targetKeys);
    }
    if Selects(p, observations, targetKeys) {
      var c: bool, d: bool :| BothObserved(p, observations, c, d) && targetKeys == AbsentKeys(p, c, d);
      var sshFirst := observations[0].identity.canonicalKey == Key(p.ssh);
      var a, b := if sshFirst then states[0] else states[1], if sshFirst then states[1] else states[0];
      ObservedStates(p, observations, a, b, c, d);
    }
  }

  lemma WatchedSize(p: Pair, observations: seq<Observation>, states: seq<bool>, observed: set<string>,
                    absent: set<string>)
    requires Watched(p, observations, 2, states, observed, absent)
    ensures |states| == 2
  {
  }

  // ----- Targets -----

  predicate TargetOk(g: Grammar, runID: string, t: Target) {
    && ValidIdentity(t.identity)
    && t.identity.service == COMPUTE && t.identity.kind == FIREWALLS && t.identity.scope.Global?
    && t.identity.location == "global" && |t.labels| == 0
    && (t.identity.name == RuleName(runID, IAP_SSH) || t.identity.name == RuleName(runID, INTERNAL_MONGO))
  }

  function TargetKey(t: Target): string { t.identity.canonicalKey }

  predicate TargetLess(a: Target, b: Target) { LexLess(TargetKey(a), TargetKey(b)) }

  ghost predicate Selectable(g: Grammar, runID: string, targets: seq<Target>) {
    g.patterns.runID(runID) && (forall t :: t in targets ==> TargetOk(g, runID, t)) && DistinctBy(TargetKey, targets)
  }

  /** Exact run firewalls, each once, in key order. */
  method SelectTargets(g: Grammar, runID: string, targets: seq<Target>) returns (selected: Option<seq<Target>>)
    ensures selected.Some? <==> Selectable(g, runID, targets)
    ensures selected.Some? ==> selected.value == SortBy(TargetLess, targets)
  {
    hide TargetOk, LexLess, SortBy;
    if !g.patterns.runID(runID) {
      return None;
    }
    var chosen: seq<Target> := [];
    var seen: set<string> := {};
    for i := 0 to |targets|
      invariant forall k :: 0 <= k < i ==> TargetOk(g, runID, targets[k])
      invariant forall j, k :: 0 <= j < k < i ==> TargetKey(targets[j]) != TargetKey(targets[k])
      invariant forall x :: x in seen <==> exists k :: 0 <= k < i && TargetKey(targets[k]) == x
      invariant chosen == targets[..i]
    {
      if !TargetOk(g, runID, targets[i]) {
        assert targets[i] in targets;
        return None;
      }
      if targets[i].identity.canonicalKey in seen {
        return None;
      }
      seen := seen + {targets[i].identity.canonicalKey};
      chosen := chosen + [targets[i]];
    }
    assert chosen == targets;
    return Some(SortBy(TargetLess, chosen));
  }

  function TargetOf(r: FirewallRule): Target { Target(r.identity, map[]) }

  /** The insert targets of the absent rules, in key order. */
  function AbsentTargets(p: Pair, sshAbsent: bool, mongoAbsent: bool): seq<Target> {
    (if sshAbsent then [TargetOf(p.ssh)] else []) + (if mongoAbsent then [TargetOf(p.mongo)] else [])
  }

  ghost function TargetKeys(targets: seq<Target>): set<string> {
    set t | t in targets :: TargetKey(t)
  }

  lemma AbsentTargetsSelectable(g: Grammar, p: Pair, cidrs: seq<string>, runID: string, projectID: string,
                                fingerprint: string, a: bool, b: bool)
    requires PairOf(g, p, cidrs, runID, projectID, fingerprint)
    ensures Selectable(g, runID, AbsentTargets(p, a, b))
    ensures TargetKeys(AbsentTargets(p, a, b)) == AbsentKeys(p, a, b)
    ensures SortBy(TargetLess, AbsentTargets(p, a, b)) == AbsentTargets(p, a, b)
    ensures Orders(TargetLess, AbsentTargets(p, a, b))
  {
    hide RuleName, RuleAccepted, Normalize, RequiredPair, LexLess, SortBy, ValidIdentity, TargetOk;
    KeysSortSSHFirst(projectID, runID, fingerprint);
    PairTargets(g, p, cidrs, runID, projectID, fingerprint);
    PickTargets(g, runID, p, a, b);
  }

  lemma PairTargets(g: Grammar, p: Pair, cidrs: seq<string>, runID: string, projectID: string, fingerprint: string)
    requires PairOf(g, p, cidrs, runID, projectID, fingerprint)
    ensures g.patterns.runID(runID) && TargetOk(g, runID, TargetOf(p.ssh)) && TargetOk(g, runID, TargetOf(p.mongo))
  {
    hide RuleName, CanonicalTargetKey, Description, NodeTag, ValidIdentity;
  }

  lemma PickTargets(g: Grammar, runID: string, p: Pair, a: bool, b: bool)
    requires g.patterns.runID(runID) && TargetOk(g, runID, TargetOf(p.ssh)) && TargetOk(g, runID, TargetOf(p.mongo))
    requires LexLess(Key(p.ssh), Key(p.mongo)) && !LexLess(Key(p.mongo), Key(p.ssh)) && Key(p.ssh) != Key(p.mongo)
    ensures Selectable(g, runID, AbsentTargets(p, a, b))
    ensures TargetKeys(AbsentTargets(p, a, b)) == AbsentKeys(p, a, b)
    ensures SortBy(TargetLess, AbsentTargets(p, a, b)) == AbsentTargets(p, a, b)
    ensures Orders(TargetLess, AbsentTargets(p, a, b))
  {
    hide LexLess, SortBy, TargetOk;
    LexIrreflexive(Key(p.ssh));
    LexIrreflexive(Key(p.mongo));
    var x, y := TargetOf(p.ssh), TargetOf(p.mongo);
    SortTwo(TargetLess, x, y);
    var want := AbsentTargets(p, a, b);
    assert want == (if a && b then [x, y] else if a then [x] else if b then [y] else []);
    forall k ensures k in TargetKeys(want) <==> k in AbsentKeys(p, a, b) {
      assert a ==> x in want;
      assert b ==> y in want;
    }
  }

  lemma SortTwo<T>(less: (T, T) -> bool, x: T, y: T)
    requires !less(y, x)
    ensures SortBy(less, [x, y]) == [x, y] && SortBy(less, [x]) == [x] && SortBy(less, [y]) == [y]
    ensures SortBy(less, []) == []
  {
    assert [x, y][1..] == [y] && [x][1..] == [] && [y][1..] == [];
    assert SortBy(less, [y]) == InsertBy(less, y, []) == [y];
    assert SortBy(less, [x]) == InsertBy(less, x, []) == [x];
    assert SortBy(less, [x, y]) == InsertBy(less, x, [y]) == [x, y];
  }

  /** Selectable targets with the keys of the absent rules are those rules' targets. */
  lemma KeysPinTargets(g: Grammar, p: Pair, cidrs: seq<string>, runID: string, projectID: string, fingerprint: string,
                       targets: seq<Target>, a: bool, b: bool)
    requires PairOf(g, p, cidrs, runID, projectID, fingerprint)
    ensures Selectable(g, runID, targets) && TargetKeys(targets) == AbsentKeys(p, a, b) <==>
            multiset(targets) == multiset(AbsentTargets(p, a, b))
  {
    hide PairOf, RuleName, RuleAccepted, Normalize, RequiredPair, AbsentTargets, AbsentKeys, ValidIdentity, TargetOk;
    var want := AbsentTargets(p, a, b);
    AbsentTargetsSelectable(g, p, cidrs, runID, projectID, fingerprint, a, b);
    PairFacts(g, p, cidrs, runID, projectID, fingerprint);
    if multiset(targets) == multiset(want) {
      ReorderKeepsElements(targets, want);
      DistinctByReordered(TargetKey, want, targets);
    }
    if Selectable(g, runID, targets) && TargetKeys(targets) == AbsentKeys(p, a, b) {
      SameKeysSameTargets(g, runID, p, targets, a, b);
    }
  }

  lemma SameKeysSameTargets(g: Grammar, runID: string, p: Pair, targets: seq<Target>, a: bool, b: bool)
    requires Selectable(g, runID, targets) && Selectable(g, runID, AbsentTargets(p, a, b))
    requires TargetKeys(targets) == AbsentKeys(p, a, b) == TargetKeys(AbsentTargets(p, a, b))
    requires ValidIdentity(p.ssh.identity) && ValidIdentity(p.mongo.identity)
    ensures multiset(targets) == multiset(AbsentTargets(p, a, b))
  {
    hide TargetOk, ValidIdentity, AbsentTargets;
    var want := AbsentTargets(p, a, b);
    DistinctByIsDistinct(TargetKey, targets);
    DistinctByIsDistinct(TargetKey, want);
    forall t ensures t in targets <==> t in want {
      if t in targets {
        assert TargetKey(t) in TargetKeys(want);
        var u :| u in want && TargetKey(u) == TargetKey(t);
        SameTarget(g, runID, t, u);
      }
      if t in want {
        assert TargetKey(t) in TargetKeys(targets);
        var u :| u in targets && TargetKey(u) == TargetKey(t);
        SameTarget(g, runID, u, t);
      }
    }
    SameElementsReorder(targets, want);
  }

  lemma SameTarget(g: Grammar, runID: string, t: Target, u: Target)
    requires TargetOk(g, runID, t) && TargetOk(g, runID, u) && TargetKey(t) == TargetKey(u)
    ensures t == u
  {
    hide CanonicalTargetKey, RuleName;
    KeyIsInjective(t.identity, u.identity);
    assert t.labels == map[] == u.labels;
  }

  // ----- The whole proof -----

  /** Rules, observations and targets, all determined up to order by which rules are absent. */
  ghost predicate Arranged(g: Grammar, p: Pair, rules: seq<FirewallRule>, observations: seq<Observation>,
                           targets: seq<Target>, a: bool, b: bool)
  {
    BothRules(p, rules) && BothObserved(p, observations, a, b) && multiset(targets) == multiset(AbsentTargets(p, a, b))
  }

  ghost predicate FirewallProved(g: Grammar, rules: seq<FirewallRule>, observations: seq<Observation>,
                                 cidrs: seq<string>, targets: seq<Target>, x: Context)
  {
    var fingerprint := g.lifetimeDigest(x.lifetime);
    && LifetimeAccepted(g, x)
    && PairAdmissible(g, cidrs, x.runID, x.lifetime.projectID, fingerprint)
    && exists a: bool, b: bool ::
         Arranged(g, RequiredPair(x.lifetime.projectID, x.runID, fingerprint), rules, observations, targets, a, b)
  }

  /** Accepts exactly the required pair, observed once each, with every absent
      rule and nothing else selected for insertion. */
  method ValidateFirewallRules(g: Grammar, rules: seq<FirewallRule>, observations: seq<Observation>,
                               cidrs: seq<string>, targets: seq<Target>, x: Context) returns (ok: bool)
    ensures ok <==> FirewallProved(g, rules, observations, cidrs, targets, x)
  {
    hide LifetimeAccepted, PairAdmissible, RequiredPair, RulesByKey, Selectable, SortBy, BothRules, BothObserved,
      AbsentTargets, AbsentKeys;
    var fingerprint := g.lifetimeDigest(x.lifetime);
    ghost var p := RequiredPair(x.lifetime.projectID, x.runID, fingerprint);
    if !LifetimeAccepted(g, x) {
      return false;
    }
    ProofSizes(g, p, rules, observations, targets);
    if |rules| != 2 {
      return false;
    }
    if |observations| != |rules| {
      return false;
    }
    var selected := SelectTargets(g, x.runID, targets);
    ProofConsequences(g, rules, observations, cidrs, targets, x);
    if selected.None? {
      return false;
    }
    var targetKeys := CollectTargetKeys(g, x.runID, targets, selected.value);
    if |targetKeys| != |selected.value| {
      return false;
    }
    var rulesOk, rulesByKey := CheckRules(g, rules, cidrs, x.runID, x.lifetime.projectID, fingerprint);
    if !rulesOk {
      return false;
    }
    ok := CheckObservations(g, observations, rulesByKey, targetKeys, cidrs, x.runID, x.lifetime.projectID, fingerprint, p);
    ProofAssembled(g, p, rules, observations, cidrs, targets, targetKeys, x, fingerprint);
  }

  method CollectTargetKeys(g: Grammar, runID: string, ghost targets: seq<Target>, selected: seq<Target>)
    returns (keys: set<string>)
    requires Selectable(g, runID, targets) && selected == SortBy(TargetLess, targets)
    ensures keys == TargetKeys(targets) && |keys| == |selected|
  {
    hide SortBy, LexLess, TargetOk, Seen, DistinctBy;
    SortKeeps(TargetLess, targets);
    DistinctByReordered(TargetKey, targets, selected);
    keys := {};
    SeenStart(TargetKey, selected);
    for i := 0 to |selected|
      invariant Seen(TargetKey, selected, i, keys)
    {
      assert selected[i] in targets;
      OnlyFirewalls(g, runID, selected[i]);
      SeeOneMore(TargetKey, selected, i, keys);
      if selected[i].identity.service == COMPUTE && selected[i].identity.kind == FIREWALLS {
        keys := keys + {selected[i].identity.canonicalKey};
      }
    }
    SeenAll(TargetKey, selected, keys);
    SeenTargets(targets, selected, keys);
  }

  lemma OnlyFirewalls(g: Grammar, runID: string, t: Target)
    requires TargetOk(g, runID, t)
    ensures t.identity.service == COMPUTE && t.identity.kind == FIREWALLS
  {
  }

  lemma SeenTargets(targets: seq<Target>, selected: seq<Target>, keys: set<string>)
    requires Seen(TargetKey, selected, |selected|, keys) && forall t :: t in selected <==> t in targets
    ensures keys == TargetKeys(targets)
  {
    hide TargetKey;
    forall x ensures x in keys <==> x in TargetKeys(targets) {
      if x in keys {
        var k :| 0 <= k < |selected| && TargetKey(selected[k]) == x;
        assert selected[k] in targets;
      }
      if x in TargetKeys(targets) {
        var t :| t in targets && TargetKey(t) == x;
        var k :| 0 <= k < |selected| && selected[k] == t;
      }
    }
  }

  lemma ProofSizes(g: Grammar, p: Pair, rules: seq<FirewallRule>, observations: seq<Observation>, targets: seq<Target>)
    ensures forall a: bool, b: bool :: Arranged(g, p, rules, observations, targets, a, b) ==>
              |rules| == 2 && |observations| == 2
  {
    forall a: bool, b: bool | Arranged(g, p, rules, observations, targets, a, b)
      ensures |rules| == 2 && |observations| == 2
    {
      ReorderKeepsElements(rules, [p.ssh, p.mongo]);
      ReorderKeepsElements(observations, [Observed(p.ssh, a), Observed(p.mongo, b)]);
    }
  }

  lemma ProofConsequences(g: Grammar, rules: seq<FirewallRule>, observations: seq<Observation>, cidrs: seq<string>,
                          targets: seq<Target>, x: Context)
    ensures FirewallProved(g, rules, observations, cidrs, targets, x) ==> Selectable(g, x.runID, targets)
  {
    hide LifetimeAccepted, PairAdmissible, RequiredPair, Selectable, BothRules, BothObserved, AbsentTargets, AbsentKeys;
    if FirewallProved(g, rules, observations, cidrs, targets, x) {
      var fingerprint := g.lifetimeDigest(x.lifetime);
      var p := RequiredPair(x.lifetime.projectID, x.runID, fingerprint);
      var a: bool, b: bool :| Arranged(g, p, rules, observations, targets, a, b);
      KeysPinTargets(g, p, cidrs, x.runID, x.lifetime.projectID, fingerprint, targets, a, b);
    }
  }

  lemma ProofAssembled(g: Grammar, p: Pair, rules: seq<FirewallRule>, observations: seq<Observation>, cidrs: seq<string>,
                       targets: seq<Target>, targetKeys: set<string>, x: Context, fingerprint: string)
    requires fingerprint == g.lifetimeDigest(x.lifetime)
    requires p == RequiredPair(x.lifetime.projectID, x.runID, fingerprint)
    requires LifetimeAccepted(g, x) && Selectable(g, x.runID, targets) && targetKeys == TargetKeys(targets)
    requires RulesProved(g, rules, cidrs, x.runID, x.lifetime.projectID, fingerprint)
    ensures Selects(p, observations, targetKeys) <==> FirewallProved(g, rules, observations, cidrs, targets, x)
  {
    hide LifetimeAccepted, PairAdmissible, RequiredPair, Selectable, BothRules, BothObserved, AbsentTargets, AbsentKeys;
    forall a: bool, b: bool
      ensures targetKeys == AbsentKeys(p, a, b) <==> multiset(targets) == multiset(AbsentTargets(p, a, b))
    {
      KeysPinTargets(g, p, cidrs, x.runID, x.lifetime.projectID, fingerprint, targets, a, b);
    }
    if Selects(p, observations, targetKeys) {
      var a: bool, b: bool :| BothObserved(p, observations, a, b) && targetKeys == AbsentKeys(p, a, b);
      assert Arranged(g, p, rules, observations, targets, a, b);
    }
    if FirewallProved(g, rules, observations, cidrs, targets, x) {
      var a: bool, b: bool :| Arranged(g, p, rules, observations, targets, a, b);
      assert BothObserved(p, observations, a, b);
    }
  }
}
