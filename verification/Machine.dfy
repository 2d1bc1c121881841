/** The operation-state table and the machine that walks it. */
module Operation {
  import opened Common
  import opened Text

  datatype OperationState =
    | Discover | Validate | Plan | ApprovedWaiting | Lock | Protect | Execute | Paused | Verify
    | Document | Rollback | Complete | CompleteWithFailedVerification
    | CompleteWithDocumentationError | VerifiedRollback | Cancelled | Failed | FailedCleanup
  {
    predicate Terminal() {
      Complete? || CompleteWithFailedVerification? || CompleteWithDocumentationError? ||
      VerifiedRollback? || Cancelled? || Failed? || FailedCleanup?
    }
  }

  /** The transition table. */
  predicate CanTransition(from: OperationState, to: OperationState) {
    match from
    case Discover => to.Validate? || to.Cancelled? || to.Failed?
    case Validate => to.Plan? || to.Cancelled? || to.Failed?
    case Plan => to.ApprovedWaiting? || to.Lock? || to.Cancelled? || to.Failed?
    case ApprovedWaiting => to.Lock? || to.Cancelled?
    case Lock => to.Protect? || to.Execute? || to.Cancelled? || to.Failed?
    case Protect => to.Execute? || to.Paused? || to.Rollback? || to.Cancelled? || to.Failed?
    case Execute => to.Paused? || to.Verify? || to.Rollback? || to.Cancelled? || to.Failed?
    case Paused => to.Discover? || to.Rollback? || to.Cancelled? || to.Failed?
    case Verify => to.Document? || to.CompleteWithFailedVerification? || to.Rollback?
    case Document => to.Complete? || to.CompleteWithDocumentationError?
    case Rollback => to.VerifiedRollback? || to.FailedCleanup?
    case _ => false
  }

  function Successors(from: OperationState): set<OperationState> {
    set to: OperationState | CanTransition(from, to)
  }

  predicate AuthorizationRequired(state: OperationState) {
    state.Protect? || state.Execute? || state.Paused?
  }

  /** Validates durable transitions; persistence lives elsewhere. */
  class Machine {
    const operationID: string
    const planID: string
    var state: OperationState
    var generation: uint64

    constructor (operationID: string, planID: string, state: OperationState)
      requires IsOperationID(operationID) && IsPlanID(planID)
      ensures this.operationID == operationID && this.planID == planID
      ensures this.state == state && generation == 0
    {
      this.operationID, this.planID, this.state, this.generation := operationID, planID, state, 0;
    }

    method Advance(next: OperationState, authorized: bool) returns (ok: bool)
      modifies this
      ensures ok <==> CanTransition(old(state), next) &&
                      (next.Cancelled? && AuthorizationRequired(old(state)) ==> authorized)
      ensures ok ==> state == next && generation == (old(generation) + 1) % TWO_TO_64
      ensures !ok ==> state == old(state) && generation == old(generation)
    {
      if !CanTransition(state, next) {
        return false;
      }
      if next.Cancelled? && AuthorizationRequired(state) && !authorized {
        return false;
      }
      state := next;
      generation := (generation + 1) % TWO_TO_64;
      return true;
    }

    /** The public transition never carries a cancellation decision. */
    method Transition(next: OperationState) returns (ok: bool)
      modifies this
      ensures ok <==> CanTransition(old(state), next) &&
                      !(next.Cancelled? && AuthorizationRequired(old(state)))
      ensures ok ==> state == next && generation == (old(generation) + 1) % TWO_TO_64
      ensures !ok ==> state == old(state) && generation == old(generation)
    {
      ok := Advance(next, false);
    }
  }

  /** A walk of the table: consecutive states are table edges into non-terminal states. */
  ghost predicate Walk(path: seq<OperationState>, from: OperationState) {
    && path != [] && path[0] == from
    && forall i :: 0 < i < |path| ==> CanTransition(path[i - 1], path[i]) && !path[i].Terminal()
  }

  ghost predicate WalksTo(from: OperationState, to: OperationState) {
    exists path :: Walk(path, from) && path[|path| - 1] == to
  }

  /** Some walk of non-terminal states ends where `target` is one step away. */
  ghost predicate RouteReachable(current: OperationState, target: OperationState) {
    exists last :: WalksTo(current, last) && CanTransition(last, target)
  }

  lemma WalkExtends(from: OperationState, at: OperationState, next: OperationState)
    requires WalksTo(from, at) && CanTransition(at, next) && !next.Terminal()
    ensures WalksTo(from, next)
  {
    var path :| Walk(path, from) && path[|path| - 1] == at;
    assert Walk(path + [next], from);
    assert (path + [next])[|path + [next]| - 1] == next;
  }

  lemma WalkStarts(from: OperationState)
    ensures WalksTo(from, from)
  {
    assert Walk([from], from) && [from][|[from]| - 1] == from;
  }

  /** A set of states closed under non-terminal edges contains every walk that starts in it. */
  lemma {:induction false} WalkStays(path: seq<OperationState>, from: OperationState, closed: set<OperationState>)
    requires Walk(path, from) && from in closed
    requires forall s, n :: s in closed && CanTransition(s, n) && !n.Terminal() ==> n in closed
    ensures forall i :: 0 <= i < |path| ==> path[i] in closed
  {
    if |path| > 1 {
      WalkStays(path[..|path| - 1], from, closed);
      assert CanTransition(path[|path| - 2], path[|path| - 1]);
    }
  }

  lemma ReachesOnlyInside(current: OperationState, closed: set<OperationState>)
    requires current in closed
    requires forall s, n :: s in closed && CanTransition(s, n) && !n.Terminal() ==> n in closed
    ensures forall last :: WalksTo(current, last) ==> last in closed
  {
    forall last | WalksTo(current, last) ensures last in closed {
      var path :| Walk(path, current) && path[|path| - 1] == last;
      WalkStays(path, current, closed);
    }
  }

  ghost function NonTerminal(): set<OperationState> {
    {Discover, Validate, Plan, ApprovedWaiting, Lock, Protect, Execute, Paused, Verify, Document, Rollback}
  }

  ghost predicate AllReached(visited: set<OperationState>, from: OperationState) {
    forall s :: s in visited ==> WalksTo(from, s)
  }

  /** Every non-terminal successor of `state` outside `rest` is already in `visited`. */
  ghost predicate Expanded(state: OperationState, rest: set<OperationState>, visited: set<OperationState>) {
    forall n :: CanTransition(state, n) && n !in rest && !n.Terminal() ==> n in visited
  }

  ghost predicate Settled(state: OperationState, target: OperationState, visited: set<OperationState>) {
    !CanTransition(state, target) && Expanded(state, {}, visited)
  }

  ghost predicate SettledOrPending(visited: set<OperationState>, pending: seq<OperationState>,
                                   target: OperationState) {
    forall s :: s in visited ==> s in pending || Settled(s, target, visited)
  }

  /** One inner pass: queues the unvisited non-terminal successors of `state`. */
  method Expand(state: OperationState, ghost from: OperationState, visited: set<OperationState>,
                pending: seq<OperationState>)
    returns (visited': set<OperationState>, pending': seq<OperationState>)
    requires WalksTo(from, state) && AllReached(visited, from)
    ensures AllReached(visited', from) && Expanded(state, {}, visited')
    ensures visited <= visited' && visited' - visited <= NonTerminal()
    ensures pending <= pending'
    ensures forall s :: s in pending' <==> s in pending || s in visited' - visited
    ensures visited' == visited ==> pending' == pending
  {
    hide CanTransition, AllReached, Expanded;
    visited', pending' := visited, pending;
    var rest := Successors(state);
    assert Expanded(state, rest, visited) by {
      NothingExpanded(state, visited);
    }
    while rest != {}
      invariant rest <= Successors(state)
      invariant AllReached(visited', from) && Expanded(state, rest, visited')
      invariant visited <= visited' && visited' - visited <= NonTerminal()
      invariant pending <= pending'
      invariant forall s :: s in pending' <==> s in pending || s in visited' - visited
      invariant visited' == visited ==> pending' == pending
      decreases rest
    {
      var next :| next in rest;
      ReachedMore(state, from, visited', next);
      ExpandedMore(state, rest, visited', next);
      rest := rest - {next};
      if !next.Terminal() && next !in visited' {
        visited' := visited' + {next};
        pending' := pending' + [next];
      }
    }
  }

  lemma NothingExpanded(state: OperationState, visited: set<OperationState>)
    ensures Expanded(state, Successors(state), visited)
  {
  }

  lemma ReachedMore(state: OperationState, from: OperationState, visited: set<OperationState>, next: OperationState)
    requires WalksTo(from, state) && AllReached(visited, from) && CanTransition(state, next)
    ensures !next.Terminal() ==> AllReached(visited + {next}, from)
  {
    hide CanTransition, WalksTo;
    if !next.Terminal() {
      WalkExtends(from, state, next);
    }
  }

  lemma ExpandedMore(state: OperationState, rest: set<OperationState>, visited: set<OperationState>, next: OperationState)
    requires Expanded(state, rest, visited)
    ensures Expanded(state, rest - {next}, visited + {next})
    ensures next in visited || next.Terminal() ==> Expanded(state, rest - {next}, visited)
  {
    hide CanTransition;
  }

  lemma Resettle(visited: set<OperationState>, visited': set<OperationState>,
                 pending: seq<OperationState>, pending': seq<OperationState>, target: OperationState)
    requires pending != [] && SettledOrPending(visited, pending, target)
    requires visited <= visited' && Settled(pending[0], target, visited')
    requires forall s :: s in pending' <==> s in pending[1..] || s in visited' - visited
    ensures SettledOrPending(visited', pending', target)
  {
    hide CanTransition;
    forall s | s in visited' && s !in pending' ensures Settled(s, target, visited') {
      if s != pending[0] {
        assert pending == [pending[0]] + pending[1..];
        assert s in visited && s !in pending;
        assert Settled(s, target, visited);
      }
    }
  }

  lemma SearchExhausted(visited: set<OperationState>, current: OperationState, target: OperationState)
    requires current in visited && SettledOrPending(visited, [], target)
    ensures !RouteReachable(current, target)
  {
    hide CanTransition, WalksTo;
    forall s, n | s in visited && CanTransition(s, n) && !n.Terminal() ensures n in visited {
      assert Settled(s, target, visited);
    }
    ReachesOnlyInside(current, visited);
    forall last | WalksTo(current, last) ensures !CanTransition(last, target) {
      assert Settled(last, target, visited);
    }
  }

  lemma MoreVisited(visited: set<OperationState>, visited': set<OperationState>)
    requires visited <= visited' && visited' - visited <= NonTerminal()
    ensures visited' != visited ==> NonTerminal() - visited' < NonTerminal() - visited
  {
    hide NonTerminal;
    if visited' != visited {
      assert visited' - visited != {} by {
        assert visited' == visited + (visited' - visited);
      }
      var n :| n in visited' - visited;
      assert n in NonTerminal() - visited && n !in NonTerminal() - visited';
    }
  }

  lemma SettledNow(state: OperationState, target: OperationState, visited: set<OperationState>)
    requires !CanTransition(state, target) && Expanded(state, {}, visited)
    ensures Settled(state, target, visited)
  {
  }

  lemma StartPending(current: OperationState, target: OperationState)
    ensures SettledOrPending({current}, [current], target)
  {
  }

  /** The worklist search answers exactly whether a route exists. */
  method CancellationRouteReachable(current: OperationState, target: OperationState) returns (reachable: bool)
    ensures reachable <==> RouteReachable(current, target)
  {
    hide CanTransition, WalksTo, Expanded, NonTerminal, Settled;
    var visited := {current};
    var pending := [current];
    assert SettledOrPending(visited, pending, target) by {
      StartPending(current, target);
    }
    WalkStarts(current);
    while pending != []
      invariant current in visited && forall s :: s in pending ==> s in visited
      invariant AllReached(visited, current)
      invariant SettledOrPending(visited, pending, target)
      decreases NonTerminal() - visited, |pending|
    {
      var state := pending[0];
      if CanTransition(state, target) {
        return true;
      }
      var visited', pending' := Expand(state, current, visited, pending[1..]);
      MoreVisited(visited, visited');
      SettledNow(state, target, visited');
      Resettle(visited, visited', pending, pending', target);
      visited, pending := visited', pending';
    }
    SearchExhausted(visited, current, target);
    return false;
  }

  ghost predicate MayStillCancel(state: OperationState) {
    state.Discover? || state.Validate? || state.Plan? || state.ApprovedWaiting? || state.Lock? ||
    state.Protect? || state.Execute? || state.Paused?
  }

  lemma WalkToExecute(s: OperationState)
    requires MayStillCancel(s)
    ensures WalksTo(s, Execute)
  {
    WalkStarts(s);
    if s.Paused? { WalkExtends(s, Paused, Discover); }
    if s.Paused? || s.Discover? { WalkExtends(s, Discover, Validate); }
    if s.Paused? || s.Discover? || s.Validate? { WalkExtends(s, Validate, Plan); }
    if s.Paused? || s.Discover? || s.Validate? || s.Plan? { WalkExtends(s, Plan, Lock); }
    if s.ApprovedWaiting? { WalkExtends(s, ApprovedWaiting, Lock); }
    if s.Protect? { WalkExtends(s, Protect, Execute); }
    else if !s.Execute? { WalkExtends(s, Lock, Execute); }
  }

  /** Exactly which states still have a route to each cancellation end. */
  lemma ReachabilityTable(state: OperationState)
    ensures RouteReachable(state, Cancelled) <==> MayStillCancel(state)
    ensures RouteReachable(state, Rollback) <==> MayStillCancel(state) || state.Verify?
  {
    WalkStarts(state);
    if MayStillCancel(state) {
      WalkToExecute(state);
      assert CanTransition(Execute, Cancelled) && CanTransition(Execute, Rollback);
    } else if state.Verify? {
      assert CanTransition(Verify, Rollback);
      ReachesOnlyInside(state, {Verify, Document, Rollback});
    } else if state.Document? {
      ReachesOnlyInside(state, {Document});
    } else if state.Rollback? {
      ReachesOnlyInside(state, {Rollback});
    } else {
      ReachesOnlyInside(state, {state});
    }
  }
}
