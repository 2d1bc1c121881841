/** Creating one step's network resources, and compensating exactly what was created. */
module Network {
  import opened Common
  import opened Collections

  datatype Kind = Network | Subnetwork | Router | NAT | Firewall

  /** One expected resource of an admitted step. `router` names the router a NAT
      lives in, `carried` the only NAT the step's router may carry. */
  datatype Desired = Desired(id: string, kind: Kind, name: string, shape: string, router: string, carried: string)

  datatype Plain = Plain(shape: string, id: nat)
  datatype RouterState = RouterState(shape: string, id: nat, nats: map<string, string>)

  /** Everything the step's commands can see or change. */
  datatype Live = Live(plain: map<(Kind, string), Plain>, routers: map<string, RouterState>, nextID: nat)

  /** A NAT is identified by its router's identity and content fingerprint. */
  datatype Incarnation = ID(id: nat) | InRouter(id: nat, fingerprint: RouterState)

  datatype Sight = Missing | Found(incarnation: Incarnation) | Drifted | Unreadable

  function SightIn(live: Live, d: Desired): Sight {
    match d.kind
    case Router =>
      if d.name !in live.routers then Missing
      else
        var r := live.routers[d.name];
        if r.shape != d.shape || (exists n :: n in r.nats && n != d.carried) then Drifted else Found(ID(r.id))
    case NAT =>
      if d.router !in live.routers then Unreadable
      else
        var r := live.routers[d.router];
        if exists n :: n in r.nats && n != d.name then Drifted
        else if d.name !in r.nats then Missing
        else if r.nats[d.name] != d.shape then Drifted
        else Found(InRouter(r.id, r))
    case _ =>
      var key := (d.kind, d.name);
      if key !in live.plain then Missing
      else if live.plain[key].shape != d.shape then Drifted
      else Found(ID(live.plain[key].id))
  }

  predicate CanMake(live: Live, d: Desired) {
    match d.kind
    case Router => d.name !in live.routers
    case NAT => d.router in live.routers && d.name !in live.routers[d.router].nats
    case _ => (d.kind, d.name) !in live.plain
  }

  function Made(live: Live, d: Desired): Live
    requires CanMake(live, d)
  {
    match d.kind
    case Router =>
      live.(routers := live.routers[d.name := RouterState(d.shape, live.nextID, map[])], nextID := live.nextID + 1)
    case NAT =>
      var r := live.routers[d.router];
      live.(routers := live.routers[d.router := r.(nats := r.nats[d.name := d.shape])])
    case _ =>
      live.(plain := live.plain[(d.kind, d.name) := Plain(d.shape, live.nextID)], nextID := live.nextID + 1)
  }

  /** Deleting a router deletes every NAT in it. */
  function Dropped(live: Live, d: Desired): Live {
    match d.kind
    case Router => live.(routers := live.routers - {d.name})
    case NAT =>
      if d.router !in live.routers then live
      else
        var r := live.routers[d.router];
        live.(routers := live.routers[d.router := r.(nats := r.nats - {d.name})])
    case _ => live.(plain := live.plain - {(d.kind, d.name)})
  }

  /** The same objects, whatever identity comes next. */
  predicate Same(a: Live, b: Live) {
    a.plain == b.plain && a.routers == b.routers
  }

  class Provider {
    var live: Live
    var script: seq<Fault>

    constructor (live: Live, script: seq<Fault>)
      ensures this.live == live && this.script == script
    {
      this.live, this.script := live, script;
    }

    ghost predicate Calm()
      reads this
    {
      forall i :: 0 <= i < |script| ==> script[i].Clean?
    }

    method Turn() returns (fault: Fault)
      modifies this`script
      ensures old(Calm()) ==> Calm() && fault.Clean?
    {
      if script == [] {
        return Clean;
      }
      fault, script := script[0], script[1..];
    }

    method Make(d: Desired) returns (ok: bool)
      modifies this
      ensures live == old(live) || (CanMake(old(live), d) && live == Made(old(live), d))
      ensures ok ==> CanMake(old(live), d) && live == Made(old(live), d)
      ensures old(Calm()) ==> Calm() && (ok <==> CanMake(old(live), d))
    {
      var fault := Turn();
      if fault.LostBefore? || !CanMake(live, d) {
        return false;
      }
      live := Made(live, d);
      return fault.Clean?;
    }

    method Drop(d: Desired) returns (ok: bool)
      modifies this
      ensures live == old(live) || live == Dropped(old(live), d)
      ensures ok ==> live == Dropped(old(live), d)
      ensures old(Calm()) ==> Calm() && ok
    {
      var fault := Turn();
      if fault.LostBefore? {
        return false;
      }
      live := Dropped(live, d);
      return fault.Clean?;
    }
  }

  // ----- Failures and results -----

  datatype FailureKind = Process | Drift | Authorization | Unverified
  datatype Report = NotOccurred | Occurred | Unknown
  datatype Failure = Failure(kind: FailureKind, mutation: Report)

  datatype ResourceOutcome = AlreadyPresent | Created | Deleted | Absent | NoOutcome

  /** What the step keeps for a resource it created. */
  datatype Record = Record(operation: string, step: string, attempt: nat, desired: Desired,
                           incarnation: Option<Incarnation>)

  /** One read; a NAT takes a second for its owner and a third for its status. */
  method Observe(p: Provider, d: Desired, requireOperational: bool)
    returns (present: bool, incarnation: Option<Incarnation>, failure: Option<FailureKind>)
    modifies p`script
    ensures failure.None? ==>
              match SightIn(p.live, d)
              case Missing => !present && incarnation.None?
              case Found(i) => present && incarnation == Some(i)
              case _ => false
    ensures incarnation.Some? ==> SightIn(p.live, d) == Found(incarnation.value)
    ensures old(p.Calm()) ==> p.Calm() && (failure.None? <==> SightIn(p.live, d).Missing? || SightIn(p.live, d).Found?)
  {
    present, incarnation := false, None;
    var read := p.Turn();
    if !read.Clean? {
      return false, None, Some(Process);
    }
    match SightIn(p.live, d) {
      case Missing => return false, None, None;
      case Drifted => return false, None, Some(Drift);
      case Unreadable => return false, None, Some(Process);
      case Found(i) =>
        if d.kind.NAT? {
          var owner := p.Turn();
          if !owner.Clean? {
            return false, None, Some(Process);
          }
          if requireOperational {
            var status := p.Turn();
            if !status.Clean? {
              return true, Some(i), Some(Process);
            }
          }
        }
        return true, Some(i), None;
    }
  }

  lemma MissingIsMakeable(live: Live, d: Desired)
    requires SightIn(live, d).Missing?
    ensures CanMake(live, d) && SightIn(Made(live, d), d).Found?
  {
  }

  /** Describe, create when absent, describe again. `grant` is the answer of the
      authorization re-checked just before the create. */
  method ApplyResource(p: Provider, d: Desired, mutate: bool, grant: bool)
    returns (outcome: ResourceOutcome, incarnation: Option<Incarnation>, failure: Option<Failure>)
    modifies p
    ensures outcome.NoOutcome? ==> failure.Some?
    ensures outcome.AlreadyPresent? ==> failure.None? && p.live == old(p.live) && SightIn(p.live, d).Found?
    ensures outcome.Created? ==> mutate && SightIn(old(p.live), d).Missing? && CanMake(old(p.live), d) &&
                                 p.live == Made(old(p.live), d)
    ensures outcome.Created? && failure.Some? ==> failure.value.mutation.Occurred?
    ensures outcome.Created? && incarnation.Some? ==> SightIn(p.live, d) == Found(incarnation.value)
    ensures outcome.Created? && failure.None? ==> incarnation.Some?
    ensures outcome.NoOutcome? && failure.value.mutation.Unknown? ==>
              p.live == old(p.live) || (CanMake(old(p.live), d) && p.live == Made(old(p.live), d))
    ensures outcome.NoOutcome? ==> !failure.value.mutation.Occurred?
    ensures outcome.NoOutcome? && failure.value.mutation.NotOccurred? ==> p.live == old(p.live)
    ensures outcome in {AlreadyPresent, Created, NoOutcome}
    ensures !mutate ==> p.live == old(p.live)
    // A calm provider refuses nothing that is there as planned or can be created.
    ensures old(p.Calm()) ==>
              && p.Calm()
              && (failure.None? <==> SightIn(old(p.live), d).Found? ||
                                     (SightIn(old(p.live), d).Missing? && mutate && grant))
  {
    if SightIn(p.live, d).Missing? {
      MissingIsMakeable(p.live, d);
    }
    var present, seen, unread := Observe(p, d, true);
    if unread.Some? {
      return NoOutcome, None, Some(Failure(unread.value, NotOccurred));
    }
    if present {
      return AlreadyPresent, seen, None;
    }
    if !mutate {
      return NoOutcome, None, Some(Failure(Drift, NotOccurred));
    }
    if !grant {
      return NoOutcome, None, Some(Failure(Authorization, NotOccurred));
    }
    var made := p.Make(d);
    if !made {
      return NoOutcome, None, Some(Failure(Process, Unknown));
    }
    var after, observed, unverified := Observe(p, d, true);
    if unverified.Some? || !after {
      return Created, observed, Some(Failure(Unverified, Occurred));
    }
    return Created, observed, None;
  }

  // ----- Apply -----

  ghost predicate CanMakeAll(live: Live, made: seq<Desired>)
    decreases |made|, 0
  {
    made == [] || (CanMakeAll(live, made[..|made| - 1]) &&
                   CanMake(MadeAll(live, made[..|made| - 1]), made[|made| - 1]))
  }

  /** The provider after creating `made` in order. */
  ghost function MadeAll(live: Live, made: seq<Desired>): Live
    requires CanMakeAll(live, made)
    decreases |made|, 1
  {
    if made == [] then live
    else Made(MadeAll(live, made[..|made| - 1]), made[|made| - 1])
  }

  function Wanted(created: seq<Record>): (w: seq<Desired>)
    ensures |w| == |created|
  {
    seq(|created|, i requires 0 <= i < |created| => created[i].desired)
  }

  lemma WantedAppend(created: seq<Record>, r: Record)
    ensures Wanted(created + [r]) == Wanted(created) + [r.desired]
  {
  }

  lemma NothingMade(live: Live)
    ensures CanMakeAll(live, []) && MadeAll(live, []) == live
    ensures Wanted([]) == []
  {
  }

  lemma MakeOneMore(live: Live, made: seq<Desired>, d: Desired)
    requires CanMakeAll(live, made) && CanMake(MadeAll(live, made), d)
    ensures CanMakeAll(live, made + [d]) && MadeAll(live, made + [d]) == Made(MadeAll(live, made), d)
  {
    assert (made + [d])[..|made|] == made;
  }

  lemma WitnessOneMore(live: Live, created: seq<Record>, r: Record)
    requires Witnessed(live, created) && CanMakeAll(live, Wanted(created)) && CanMakeAll(live, Wanted(created + [r]))
    requires r.incarnation.Some? && SightIn(MadeAll(live, Wanted(created)), r.desired).Missing?
    requires SightIn(MadeAll(live, Wanted(created + [r])), r.desired) == Found(r.incarnation.value)
    ensures Witnessed(live, created + [r])
  {
    var longer := created + [r];
    forall k | 0 <= k < |longer| ensures WitnessedAt(live, longer, k) {
      if k < |created| {
        assert WitnessedAt(live, created, k);
        assert longer[..k] == created[..k] && longer[..k + 1] == created[..k + 1];
      } else {
        assert longer[..k] == created && longer[..k + 1] == longer;
      }
    }
  }

  /** `created` lists plan resources in plan order, from positions below `bound`. */
  ghost predicate InPlanOrder(plan: seq<Desired>, created: seq<Record>, at: seq<nat>, bound: nat) {
    && |at| == |created|
    && (forall k :: 0 <= k < |at| ==> at[k] < bound <= |plan| && created[k].desired == plan[at[k]])
    && (forall j, k :: 0 <= j < k < |at| ==> at[j] < at[k])
  }

  /** A router of the plan carries only the NAT the plan puts into it. */
  predicate Coherent(plan: seq<Desired>) {
    forall i, j :: 0 <= i < |plan| && 0 <= j < |plan| ==>
      (plan[i].kind.Router? && plan[j].kind.NAT? && plan[j].router == plan[i].name ==> plan[i].carried == plan[j].name)
  }

  /** Creating a missing resource leaves every other one found. */
  lemma FoundKept(live: Live, d: Desired, other: Desired)
    requires SightIn(live, other).Found? && SightIn(live, d).Missing? && CanMake(live, d)
    requires d.kind.NAT? && other.kind.Router? && other.name == d.router ==> other.carried == d.name
    ensures SightIn(Made(live, d), other).Found?
  {
  }

  /** The first `i` resources of the plan are found as planned. */
  ghost predicate FoundUpTo(live: Live, plan: seq<Desired>, i: nat) {
    i <= |plan| && forall k :: 0 <= k < i ==> SightIn(live, plan[k]).Found?
  }

  lemma FoundOneMore(before: Live, after: Live, plan: seq<Desired>, i: nat)
    requires i < |plan| && Coherent(plan) && FoundUpTo(before, plan, i) && SightIn(after, plan[i]).Found?
    requires after == before || (SightIn(before, plan[i]).Missing? && CanMake(before, plan[i]) && after == Made(before, plan[i]))
    ensures FoundUpTo(after, plan, i + 1)
  {
    hide SightIn, CanMake, Made;
    if after != before {
      forall k | 0 <= k < i ensures SightIn(after, plan[k]).Found? {
        FoundKept(before, plan[i], plan[k]);
      }
    }
  }

  // ----- When a step can be applied -----

  /** Whether two resources get in each other's way when `a` comes first. */
  predicate Clash(a: Desired, b: Desired) {
    match a.kind
    case Router => b.kind.Router? && b.name == a.name
    case NAT => (b.kind.NAT? && b.router == a.router) || (b.kind.Router? && b.name == a.router)
    case _ => b.kind == a.kind && b.name == a.name
  }

  predicate Apart(plan: seq<Desired>) {
    forall j, k :: 0 <= j < k < |plan| ==> !Clash(plan[j], plan[k])
  }

  predicate RouterFirst(plan: seq<Desired>, k: nat)
    requires k < |plan|
  {
    exists j :: 0 <= j < k && plan[j].kind.Router? && plan[j].name == plan[k].router
  }

  /** The resource is there as planned, or absent, or a NAT whose absent router the plan creates before it. */
  predicate Startable(live: Live, plan: seq<Desired>, k: nat)
    requires k < |plan|
  {
    var sight := SightIn(live, plan[k]);
    sight.Found? || sight.Missing? ||
    (plan[k].kind.NAT? && plan[k].router !in live.routers && RouterFirst(plan, k))
  }

  predicate AllStartable(live: Live, plan: seq<Desired>) {
    forall k :: 0 <= k < |plan| ==> Startable(live, plan, k)
  }

  /** Every resource, at its turn, is there as planned or absent and then created. */
  ghost predicate Applies(live: Live, plan: seq<Desired>)
    decreases |plan|
  {
    plan == [] ||
    match SightIn(live, plan[0])
    case Found(_) => Applies(live, plan[1..])
    case Missing => CanMake(live, plan[0]) && Applies(Made(live, plan[0]), plan[1..])
    case _ => false
  }

  lemma StartableNext(live: Live, after: Live, plan: seq<Desired>, k: nat)
    requires 0 < k < |plan| && Apart(plan)
    requires (SightIn(live, plan[0]).Found? && after == live) ||
             (SightIn(live, plan[0]).Missing? && CanMake(live, plan[0]) && after == Made(live, plan[0]))
    ensures Startable(live, plan, k) <==> Startable(after, plan[1..], k - 1)
  {
    var d, t, rest := plan[0], plan[k], plan[1..];
    assert rest[k - 1] == t && !Clash(d, t);
    assert RouterFirst(plan, k) <==> (d.kind.Router? && d.name == t.router) || RouterFirst(rest, k - 1) by {
      if RouterFirst(plan, k) {
        var j :| 0 <= j < k && plan[j].kind.Router? && plan[j].name == t.router;
        assert j > 0 ==> rest[j - 1] == plan[j];
      }
      if RouterFirst(rest, k - 1) {
        var j :| 0 <= j < k - 1 && rest[j].kind.Router? && rest[j].name == t.router;
        assert plan[j + 1] == rest[j];
      }
    }
    SightNext(live, after, d, t);
  }

  lemma SightNext(live: Live, after: Live, d: Desired, t: Desired)
    requires !Clash(d, t)
    requires (SightIn(live, d).Found? && after == live) ||
             (SightIn(live, d).Missing? && CanMake(live, d) && after == Made(live, d))
    ensures if t.kind.NAT? && d.kind.Router? && d.name == t.router && after != live
            then t.router !in live.routers && SightIn(after, t).Missing?
            else SightIn(after, t) == SightIn(live, t) &&
                 (t.kind.NAT? ==> (t.router in live.routers <==> t.router in after.routers))
    ensures d.kind.Router? ==> d.name in after.routers
  {
  }

  /** Where no two resources get in each other's way, a plan applies exactly when
      every resource can be started from the state before the step. */
  lemma {:induction false} AppliesIff(live: Live, plan: seq<Desired>)
    requires Apart(plan)
    ensures Applies(live, plan) <==> AllStartable(live, plan)
    decreases |plan|
  {
    hide SightIn, CanMake, Made, Clash;
    if plan != [] {
      var rest := plan[1..];
      assert Apart(rest) by {
        forall j, k | 0 <= j < k < |rest| ensures !Clash(rest[j], rest[k]) {
          assert rest[j] == plan[j + 1] && rest[k] == plan[k + 1];
        }
      }
      if SightIn(live, plan[0]).Missing? {
        MissingIsMakeable(live, plan[0]);
        StartableTail(live, Made(live, plan[0]), plan);
        AppliesIff(Made(live, plan[0]), rest);
      } else if SightIn(live, plan[0]).Found? {
        StartableTail(live, live, plan);
        AppliesIff(live, rest);
      } else {
        assert !Startable(live, plan, 0);
      }
    }
  }

  lemma StartableTail(live: Live, after: Live, plan: seq<Desired>)
    requires plan != [] && Apart(plan)
    requires (SightIn(live, plan[0]).Found? && after == live) ||
             (SightIn(live, plan[0]).Missing? && CanMake(live, plan[0]) && after == Made(live, plan[0]))
    ensures AllStartable(live, plan) <==> AllStartable(after, plan[1..])
  {
    hide SightIn, CanMake, Made, Startable, Apart;
    assert Startable(live, plan, 0) by {
      StartsHere(live, plan);
    }
    forall k | 0 < k < |plan| ensures Startable(live, plan, k) <==> Startable(after, plan[1..], k - 1) {
      StartableNext(live, after, plan, k);
    }
    if AllStartable(live, plan) {
      forall k | 0 <= k < |plan[1..]| ensures Startable(after, plan[1..], k) {
        assert Startable(live, plan, k + 1);
      }
    }
  }

  lemma StartsHere(live: Live, plan: seq<Desired>)
    requires plan != [] && (SightIn(live, plan[0]).Found? || SightIn(live, plan[0]).Missing?)
    ensures Startable(live, plan, 0)
  {
  }

  predicate AllGranted(grants: seq<bool>, n: nat) {
    n <= |grants| && forall i :: 0 <= i < n ==> grants[i]
  }

  predicate Stamped(created: seq<Record>, operation: string, step: string, attempt: nat) {
    forall k :: 0 <= k < |created| ==>
      created[k].operation == operation && created[k].step == step && created[k].attempt == attempt
  }

  /** The records so far account for everything created since `base`. */
  ghost predicate Tallied(base: Live, live: Live, plan: seq<Desired>, i: nat, created: seq<Record>, at: seq<nat>) {
    && CanMakeAll(base, Wanted(created)) && live == MadeAll(base, Wanted(created))
    && i <= |plan| && InPlanOrder(plan, created, at, i)
    && (AllIdentified(created) ==> Witnessed(base, created))
  }

  lemma TalliedStart(base: Live, plan: seq<Desired>)
    ensures Tallied(base, base, plan, 0, [], [])
  {
    NothingMade(base);
  }

  lemma TalliedKept(base: Live, live: Live, plan: seq<Desired>, i: nat, created: seq<Record>, at: seq<nat>)
    requires Tallied(base, live, plan, i, created, at) && i < |plan|
    ensures Tallied(base, live, plan, i + 1, created, at)
  {
    hide CanMakeAll, MadeAll, Wanted, Witnessed, AllIdentified;
  }

  lemma TalliedMade(base: Live, live: Live, plan: seq<Desired>, i: nat, created: seq<Record>, at: seq<nat>, r: Record)
    requires Tallied(base, live, plan, i, created, at) && i < |plan| && r.desired == plan[i]
    requires SightIn(live, plan[i]).Missing? && CanMake(live, plan[i])
    requires r.incarnation.Some? ==> SightIn(Made(live, plan[i]), plan[i]) == Found(r.incarnation.value)
    ensures Tallied(base, Made(live, plan[i]), plan, i + 1, created + [r], at + [i])
  {
    hide CanMakeAll, MadeAll, Wanted, Witnessed, SightIn, CanMake, Made;
    MakeOneMore(base, Wanted(created), plan[i]);
    WantedAppend(created, r);
    if AllIdentified(created + [r]) {
      assert AllIdentified(created) by {
        forall k | 0 <= k < |created| ensures created[k].incarnation.Some? {
          assert (created + [r])[k] == created[k];
        }
      }
      assert (created + [r])[|created|] == r;
      WitnessOneMore(base, created, r);
    }
  }

  /** What a lost answer to the last create leaves. */
  lemma TalliedOrOneMore(base: Live, live: Live, after: Live, plan: seq<Desired>, i: nat, created: seq<Record>,
                         at: seq<nat>)
    requires Tallied(base, live, plan, i, created, at) && i < |plan|
    requires after == live || (CanMake(live, plan[i]) && after == Made(live, plan[i]))
    ensures var made := if after == live then Wanted(created) else Wanted(created) + [plan[i]];
            && CanMakeAll(base, made) && after == MadeAll(base, made)
            && made[..|created|] == Wanted(created)
  {
    hide CanMakeAll, MadeAll, Witnessed, SightIn, CanMake, Made;
    if after != live {
      MakeOneMore(base, Wanted(created), plan[i]);
    }
  }

  /** Applies a step. `made` is what the provider gained, in order; `at` places
      each creation record in the plan. */
  method ApplyStep(p: Provider, plan: seq<Desired>, mutate: bool, grants: seq<bool>,
                   operation: string, step: string, attempt: nat)
    returns (created: seq<Record>, failure: Option<Failure>, ghost made: seq<Desired>, ghost at: seq<nat>)
    modifies p
    ensures CanMakeAll(old(p.live), made) && p.live == MadeAll(old(p.live), made)
    ensures InPlanOrder(plan, created, at, |plan|)
    ensures Stamped(created, operation, step, attempt)
    // Reports are sound for every failure point.
    ensures failure.None? || !failure.value.mutation.Unknown? ==> made == Wanted(created)
    ensures failure.Some? && failure.value.mutation.NotOccurred? ==> created == [] && p.live == old(p.live)
    ensures failure.Some? && failure.value.mutation.Occurred? ==> created != []
    ensures failure.Some? && failure.value.mutation.Unknown? ==>
              made == Wanted(created) ||
              (|made| == |created| + 1 && made[..|created|] == Wanted(created) && made[|created|] in plan)
    ensures !mutate ==> created == [] && p.live == old(p.live)
    // Each record carries the incarnation seen right after its create, unless that
    // create is the failure reported and nothing was seen.
    ensures AllIdentified(created) ==> Witnessed(old(p.live), created)
    ensures failure.None? || !failure.value.mutation.Occurred? ==> AllIdentified(created)
    // On success the whole plan is there.
    ensures failure.None? && Coherent(plan) ==> FoundUpTo(p.live, plan, |plan|)
    // A calm provider and a live authorization: exactly the plans that can be started succeed.
    ensures old(p.Calm()) && mutate && AllGranted(grants, |plan|) && Apart(plan) ==>
              (failure.None? <==> AllStartable(old(p.live), plan))
    ensures old(p.Calm()) && !mutate ==> (failure.None? <==> FoundUpTo(old(p.live), plan, |plan|))
    ensures old(p.Calm()) ==> p.Calm()
  {
    hide CanMake, Made, SightIn, CanMakeAll, MadeAll, Wanted, Coherent, Apart, AllStartable, Applies, Tallied,
      Witnessed, InPlanOrder;
    created, failure, made, at := [], None, [], [];
    ghost var base := p.live;
    assert FoundUpTo(p.live, plan, 0) by {
      NothingFound(p.live, plan);
    }
    TalliedStart(base, plan);
    if Apart(plan) {
      AppliesIff(p.live, plan);
    }
    ghost var willing := mutate && AllGranted(grants, |plan|) && p.Calm();
    assert plan[0..] == plan;
    for i := 0 to |plan|
      invariant Tallied(base, p.live, plan, i, created, at) && Stamped(created, operation, step, attempt)
      invariant AllIdentified(created)
      invariant created == [] ==> p.live == base
      invariant Coherent(plan) ==> FoundUpTo(p.live, plan, i)
      invariant !mutate ==> created == [] && FoundUpTo(p.live, plan, i)
      invariant willing ==> (Applies(base, plan) <==> Applies(p.live, plan[i..]))
      invariant old(p.Calm()) ==> p.Calm()
    {
      ghost var before := p.live;
      AppliesNext(p.live, plan, i);
      var outcome, incarnation, failed := ApplyResource(p, plan[i], mutate, i < |grants| && grants[i]);
      if outcome.Created? {
        var record := Record(operation, step, attempt, plan[i], incarnation);
        TalliedMade(base, before, plan, i, created, at, record);
        created, at := created + [record], at + [i];
      } else if p.live == before {
        TalliedKept(base, before, plan, i, created, at);
      }
      if failed.Some? {
        if outcome.Created? || p.live == before {
          TalliedAtExit(base, p.live, plan, i + 1, created, at);
          made := Wanted(created);
        } else {
          TalliedAtExit(base, before, plan, i, created, at);
          TalliedOrOneMore(base, before, p.live, plan, i, created, at);
          made := Wanted(created) + [plan[i]];
        }
        failure := failed;
        if created != [] && failed.value.mutation.NotOccurred? {
          failure := Some(failed.value.(mutation := Occurred));
        }
        return;
      }
      if Coherent(plan) {
        FoundOneMore(before, p.live, plan, i);
      }
    }
    NothingLeft(p.live, plan);
    TalliedAtExit(base, p.live, plan, |plan|, created, at);
    made := Wanted(created);
  }

  lemma TalliedAtExit(base: Live, live: Live, plan: seq<Desired>, i: nat, created: seq<Record>, at: seq<nat>)
    requires Tallied(base, live, plan, i, created, at)
    ensures CanMakeAll(base, Wanted(created)) && live == MadeAll(base, Wanted(created))
    ensures InPlanOrder(plan, created, at, |plan|)
    ensures AllIdentified(created) ==> Witnessed(base, created)
  {
    hide CanMakeAll, MadeAll, Wanted, Witnessed, AllIdentified;
  }

  lemma NothingLeft(live: Live, plan: seq<Desired>)
    ensures Applies(live, plan[|plan|..])
  {
  }

  lemma AppliesNext(live: Live, plan: seq<Desired>, i: nat)
    requires i < |plan|
    ensures var rest := plan[i + 1..];
            Applies(live, plan[i..]) <==>
            match SightIn(live, plan[i])
            case Found(_) => Applies(live, rest)
            case Missing => CanMake(live, plan[i]) && Applies(Made(live, plan[i]), rest)
            case _ => false
  {
    hide SightIn, CanMake, Made;
    assert plan[i..][1..] == plan[i + 1..];
  }

  lemma NothingFound(live: Live, plan: seq<Desired>)
    ensures FoundUpTo(live, plan, 0)
  {
  }

  predicate AllIdentified(created: seq<Record>) {
    forall k :: 0 <= k < |created| ==> created[k].incarnation.Some?
  }

  /** Each record's incarnation is what the provider showed right after that create. */
  ghost predicate Witnessed(live: Live, created: seq<Record>) {
    forall k :: 0 <= k < |created| ==> WitnessedAt(live, created, k)
  }

  ghost predicate WitnessedAt(live: Live, created: seq<Record>, k: nat)
    requires k < |created|
  {
    && CanMakeAll(live, Wanted(created[..k])) && CanMakeAll(live, Wanted(created[..k + 1]))
    && created[k].incarnation.Some?
    && SightIn(MadeAll(live, Wanted(created[..k + 1])), created[k].desired) == Found(created[k].incarnation.value)
    && SightIn(MadeAll(live, Wanted(created[..k])), created[k].desired).Missing?
  }

  // ----- Compensate -----

  /** The records a compensation may act on: bound to this operation and step, to
      an attempt already made, and to one plan resource with a known incarnation. */
  predicate Admissible(plan: seq<Desired>, operation: string, step: string, attempt: nat, r: Record) {
    && r.operation == operation && r.step == step && 1 <= r.attempt <= attempt
    && r.desired in plan && r.incarnation.Some?
  }

  ghost predicate AllAdmissible(plan: seq<Desired>, operation: string, step: string, attempt: nat, created: seq<Record>) {
    && (forall k :: 0 <= k < |created| ==> Admissible(plan, operation, step, attempt, created[k]))
    && (forall j, k :: 0 <= j < k < |created| ==> created[j].desired.id != created[k].desired.id)
  }

  function DesiredID(d: Desired): string { d.id }
  function RecordID(r: Record): string { r.desired.id }

  /** Files the plan's resources under their identifiers. */
  method IndexPlan(plan: seq<Desired>) returns (byID: map<string, Desired>)
    requires DistinctBy(DesiredID, plan)
    ensures Filed(DesiredID, plan, |plan|, byID)
  {
    hide Filed, DistinctBy;
    byID := map[];
    FileStart(DesiredID, plan);
    for i := 0 to |plan|
      invariant Filed(DesiredID, plan, i, byID)
    {
      NotFiledYet(DesiredID, plan, i, byID);
      FileOneMore(DesiredID, plan, i, byID);
      byID := byID[plan[i].id := plan[i]];
    }
  }

  lemma PlannedUnderID(plan: seq<Desired>, byID: map<string, Desired>, d: Desired)
    requires Filed(DesiredID, plan, |plan|, byID)
    ensures d.id in byID && byID[d.id] == d <==> d in plan
  {
    if d.id in byID && byID[d.id] == d {
      FiledEntry(DesiredID, plan, |plan|, byID, d.id);
    }
    if d in plan {
      var k :| 0 <= k < |plan| && plan[k] == d;
      assert DesiredID(plan[k]) in byID;
    }
  }

  /** Binds every record to its plan resource and orders the deletes in reverse. */
  method AdmitCompensation(plan: seq<Desired>, operation: string, step: string, attempt: nat, created: seq<Record>)
    returns (ok: bool, ordered: seq<Record>)
    requires forall i, j :: 0 <= i < j < |plan| ==> plan[i].id != plan[j].id
    ensures ok <==> AllAdmissible(plan, operation, step, attempt, created)
    ensures ok ==> ordered == Reversed(Selected(plan, created))
  {
    hide Filed, DistinctUpTo, Selected, Reversed;
    var byID := IndexPlan(plan);
    var selected: map<string, Record> := map[];
    FileStart(RecordID, created);
    for i := 0 to |created|
      invariant forall k :: 0 <= k < i ==> Admissible(plan, operation, step, attempt, created[k])
      invariant DistinctUpTo(RecordID, created, i) && Filed(RecordID, created, i, selected)
    {
      var r := created[i];
      if r.operation != operation || r.step != step || r.attempt < 1 || r.attempt > attempt {
        return false, [];
      }
      PlannedUnderID(plan, byID, r.desired);
      if r.desired.id !in byID || byID[r.desired.id] != r.desired || r.incarnation.None? {
        return false, [];
      }
      NotFiledYet(RecordID, created, i, selected);
      if r.desired.id in selected {
        return false, [];
      }
      FileOneMore(RecordID, created, i, selected);
      selected := selected[r.desired.id := r];
    }
    DistinctToTheEnd(RecordID, created);
    ordered := OrderDeletes(plan, created, selected);
    return true, ordered;
  }

  /** Walks the plan backwards and collects the selected records. */
  method OrderDeletes(plan: seq<Desired>, created: seq<Record>, selected: map<string, Record>)
    returns (ordered: seq<Record>)
    requires Filed(RecordID, created, |created|, selected)
    ensures ordered == Reversed(Selected(plan, created))
  {
    hide Selected, Reversed, RecordFor;
    ordered := [];
    NothingSelected(created);
    assert plan[|plan|..] == [];
    var index := |plan|;
    while index > 0
      invariant 0 <= index <= |plan|
      invariant ordered == Reversed(Selected(plan[index..], created))
    {
      index := index - 1;
      assert plan[index..] == [plan[index]] + plan[index + 1..];
      SelectedFirst(plan[index], plan[index + 1..], created);
      if plan[index].id in selected {
        var k :| 0 <= k < |created| && RecordID(created[k]) == plan[index].id;
        RecordIsFound(created, k);
        ordered := ordered + [selected[plan[index].id]];
      } else {
        assert forall k :: 0 <= k < |created| ==> RecordID(created[k]) in selected;
        NoRecordFound(created, plan[index].id);
      }
    }
    assert plan[0..] == plan;
  }

  lemma NothingSelected(created: seq<Record>)
    ensures Reversed(Selected([], created)) == []
  {
  }

  function RecordFor(created: seq<Record>, id: string): Option<Record> {
    if created == [] then None
    else if created[0].desired.id == id then Some(created[0])
    else RecordFor(created[1..], id)
  }

  /** The records of plan resources, in plan order. */
  function Selected(plan: seq<Desired>, created: seq<Record>): seq<Record> {
    if plan == [] then []
    else
      var r := RecordFor(created, plan[0].id);
      (if r.Some? then [r.value] else []) + Selected(plan[1..], created)
  }

  function Reversed<T>(s: seq<T>): seq<T> {
    if s == [] then [] else Reversed(s[1..]) + [s[0]]
  }

  lemma SelectedFirst(d: Desired, rest: seq<Desired>, created: seq<Record>)
    ensures Selected([d] + rest, created) ==
            (if RecordFor(created, d.id).Some? then [RecordFor(created, d.id).value] else []) + Selected(rest, created)
    ensures Reversed(Selected([d] + rest, created)) ==
            Reversed(Selected(rest, created)) +
            (if RecordFor(created, d.id).Some? then [RecordFor(created, d.id).value] else [])
  {
    assert ([d] + rest)[1..] == rest;
    var tail := Selected(rest, created);
    if RecordFor(created, d.id).Some? {
      assert ([RecordFor(created, d.id).value] + tail)[1..] == tail;
    } else {
      assert [] + tail == tail;
    }
  }

  lemma {:induction false} RecordIsFound(created: seq<Record>, k: nat)
    requires k < |created|
    requires forall j :: 0 <= j < |created| && created[j].desired.id == created[k].desired.id ==> created[j] == created[k]
    ensures RecordFor(created, created[k].desired.id) == Some(created[k])
  {
    if created[0].desired.id != created[k].desired.id {
      assert created[1..][k - 1] == created[k];
      RecordIsFound(created[1..], k - 1);
    }
  }

  lemma {:induction false} NoRecordFound(created: seq<Record>, id: string)
    requires forall k :: 0 <= k < |created| ==> created[k].desired.id != id
    ensures RecordFor(created, id).None?
  {
    if created != [] {
      NoRecordFound(created[1..], id);
    }
  }

  /** What a single compensating delete may have done. */
  ghost predicate DropsOnly(before: Live, after: Live, r: Record) {
    || after == before
    || (r.incarnation.Some? && SightIn(before, r.desired) == Found(r.incarnation.value) && after == Dropped(before, r.desired) &&
        (r.desired.kind.Router? ==> before.routers[r.desired.name].nats == map[]))
  }

  method DeleteResource(p: Provider, r: Record, grant: bool)
    returns (outcome: ResourceOutcome, failure: Option<Failure>)
    requires r.incarnation.Some?
    modifies p
    ensures DropsOnly(old(p.live), p.live, r)
    ensures outcome in {Absent, Deleted, NoOutcome}
    ensures outcome.NoOutcome? <==> failure.Some?
    ensures outcome.Absent? ==> p.live == old(p.live) && SightIn(p.live, r.desired).Missing?
    ensures outcome.Deleted? ==> SightIn(old(p.live), r.desired) == Found(r.incarnation.value) &&
                                 p.live == Dropped(old(p.live), r.desired) && SightIn(p.live, r.desired).Missing?
    ensures failure.Some? && failure.value.mutation.NotOccurred? ==> p.live == old(p.live)
    ensures failure.Some? && failure.value.mutation.Occurred? ==>
              SightIn(old(p.live), r.desired) == Found(r.incarnation.value) && p.live == Dropped(old(p.live), r.desired)
    ensures old(p.Calm()) ==> p.Calm()
    ensures (old(p.Calm()) && grant && SightIn(old(p.live), r.desired) == Found(r.incarnation.value) &&
             (r.desired.kind.Router? ==> old(p.live).routers[r.desired.name].nats == map[])) ==> outcome.Deleted?
  {
    var d := r.desired;
    var present, seen, unread := Observe(p, d, false);
    if unread.Some? {
      return NoOutcome, Some(Failure(unread.value, NotOccurred));
    }
    if !present {
      return Absent, None;
    }
    if seen != r.incarnation {
      return NoOutcome, Some(Failure(Drift, NotOccurred));
    }
    if d.kind.Router? {
      var listing := p.Turn();
      if !listing.Clean? {
        return NoOutcome, Some(Failure(Process, NotOccurred));
      }
      if d.name in p.live.routers && p.live.routers[d.name].nats != map[] {
        return NoOutcome, Some(Failure(Drift, NotOccurred));
      }
      present, seen, unread := Observe(p, d, false);
      if unread.Some? {
        return NoOutcome, Some(Failure(unread.value, NotOccurred));
      }
      if !present || seen != r.incarnation {
        return NoOutcome, Some(Failure(Drift, NotOccurred));
      }
    }
    if !grant {
      return NoOutcome, Some(Failure(Authorization, NotOccurred));
    }
    var dropped := p.Drop(d);
    if !dropped {
      return NoOutcome, Some(Failure(Process, Unknown));
    }
    var after, _, unverified := Observe(p, d, false);
    if unverified.Some? || after {
      return NoOutcome, Some(Failure(Unverified, Occurred));
    }
    return Deleted, None;
  }

  /** Everything missing from `after` was deleted on behalf of a record that names
      the very incarnation found; whatever remains is unchanged. */
  ghost predicate Accounted(before: Live, after: Live, created: seq<Record>) {
    && (forall key :: key in after.plain ==> key in before.plain && after.plain[key] == before.plain[key])
    && (forall key :: key in before.plain && key !in after.plain ==> PlainAccounted(before, key, created))
    && (forall n :: n in after.routers ==> n in before.routers && RouterKept(before.routers[n], after.routers[n]))
    && (forall n :: n in before.routers && n !in after.routers ==> RouterAccounted(before, n, created))
    && (forall n, x ::
          (n in before.routers && x in before.routers[n].nats && (n !in after.routers || x !in after.routers[n].nats))
          ==> NATAccounted(before, n, x, created))
  }

  ghost predicate PlainAccounted(before: Live, key: (Kind, string), created: seq<Record>)
    requires key in before.plain
  {
    exists r :: r in created && (r.desired.kind, r.desired.name) == key && r.incarnation == Some(ID(before.plain[key].id))
  }

  ghost predicate RouterAccounted(before: Live, n: string, created: seq<Record>)
    requires n in before.routers
  {
    exists r :: r in created && r.desired.kind.Router? && r.desired.name == n &&
      r.incarnation == Some(ID(before.routers[n].id))
  }

  ghost predicate NATAccounted(before: Live, n: string, x: string, created: seq<Record>)
    requires n in before.routers && x in before.routers[n].nats
  {
    exists r :: r in created && r.desired.kind.NAT? && r.desired.router == n && r.desired.name == x &&
      r.incarnation.Some? && r.incarnation.value.InRouter? && r.incarnation.value.id == before.routers[n].id &&
      r.desired.shape == before.routers[n].nats[x]
  }

  ghost predicate RouterKept(before: RouterState, after: RouterState) {
    && before.shape == after.shape && before.id == after.id
    && forall x :: x in after.nats ==> x in before.nats && after.nats[x] == before.nats[x]
  }

  /** The resource is there, in whatever state. */
  predicate Held(live: Live, d: Desired) {
    match d.kind
    case Router => d.name in live.routers
    case NAT => d.router in live.routers && d.name in live.routers[d.router].nats
    case _ => (d.kind, d.name) in live.plain
  }

  /** Some recorded resource was there before and is gone. */
  ghost predicate SomeGone(before: Live, after: Live, created: seq<Record>) {
    exists r :: r in created && Held(before, r.desired) && !Held(after, r.desired)
  }

  lemma HeldBefore(before: Live, after: Live, created: seq<Record>, d: Desired)
    requires Accounted(before, after, created) && Held(after, d)
    ensures Held(before, d)
  {
    hide PlainAccounted, RouterAccounted, NATAccounted;
  }

  lemma DropsHold(before: Live, after: Live, r: Record, d: Desired)
    requires DropsOnly(before, after, r) && Held(after, d)
    ensures Held(before, d)
  {
    hide SightIn;
  }

  lemma DroppedIsGone(live: Live, d: Desired)
    requires SightIn(live, d).Found?
    ensures Held(live, d) && !Held(Dropped(live, d), d)
  {
  }

  /** One more delete: what was gone stays gone, and the resource it deleted is gone. */
  lemma GoneAfterDelete(before: Live, mid: Live, after: Live, created: seq<Record>, r: Record)
    requires Accounted(before, mid, created) && DropsOnly(mid, after, r) && r in created
    ensures SomeGone(before, mid, created) ==> SomeGone(before, after, created)
    ensures SightIn(mid, r.desired).Found? && after == Dropped(mid, r.desired) ==> SomeGone(before, after, created)
  {
    hide Accounted, DropsOnly, Held, SightIn, Dropped;
    if SomeGone(before, mid, created) {
      var q :| q in created && Held(before, q.desired) && !Held(mid, q.desired);
      if Held(after, q.desired) {
        DropsHold(mid, after, r, q.desired);
      }
    }
    if SightIn(mid, r.desired).Found? && after == Dropped(mid, r.desired) {
      DroppedIsGone(mid, r.desired);
      HeldBefore(before, mid, created, r.desired);
    }
  }

  /** The first `i` deletes left none of their resources. */
  ghost predicate GoneUpTo(live: Live, ordered: seq<Record>, i: nat) {
    i <= |ordered| && forall k :: 0 <= k < i ==> !Held(live, ordered[k].desired)
  }

  lemma GoneOneMore(before: Live, after: Live, ordered: seq<Record>, i: nat)
    requires i < |ordered| && GoneUpTo(before, ordered, i) && DropsOnly(before, after, ordered[i])
    requires SightIn(after, ordered[i].desired).Missing?
    ensures GoneUpTo(after, ordered, i + 1)
  {
    hide DropsOnly, Held, SightIn;
    forall k | 0 <= k < i ensures !Held(after, ordered[k].desired) {
      if Held(after, ordered[k].desired) {
        DropsHold(before, after, ordered[i], ordered[k].desired);
      }
    }
    MissingIsNotHeld(after, ordered[i].desired);
  }

  lemma MissingIsNotHeld(live: Live, d: Desired)
    requires SightIn(live, d).Missing?
    ensures !Held(live, d)
  {
  }

  lemma {:induction false} SelectedHas(plan: seq<Desired>, created: seq<Record>, r: Record)
    requires r in created && r.desired in plan
    requires forall j, k :: 0 <= j < k < |created| ==> created[j].desired.id != created[k].desired.id
    ensures r in Selected(plan, created)
  {
    var k :| 0 <= k < |created| && created[k] == r;
    if plan[0] == r.desired {
      RecordIsFound(created, k);
    } else {
      assert r.desired in plan[1..];
      SelectedHas(plan[1..], created, r);
    }
  }

  lemma AccountedNothing(before: Live, created: seq<Record>)
    ensures Accounted(before, before, created)
  {
  }

  lemma AccountedDrop(before: Live, mid: Live, after: Live, created: seq<Record>, r: Record)
    requires Accounted(before, mid, created) && r in created && DropsOnly(mid, after, r)
    ensures Accounted(before, after, created)
  {
    hide Accounted, DropsOnly;
    if after != mid {
      match r.desired.kind {
        case Router => AccountedRouter(before, mid, after, created, r);
        case NAT => AccountedNAT(before, mid, after, created, r);
        case _ => AccountedPlain(before, mid, after, created, r);
      }
    }
  }

  lemma AccountedRouter(before: Live, mid: Live, after: Live, created: seq<Record>, r: Record)
    requires Accounted(before, mid, created) && r in created && DropsOnly(mid, after, r) && after != mid
    requires r.desired.kind.Router?
    ensures Accounted(before, after, created)
  {
    assert r.desired.name in mid.routers && mid.routers[r.desired.name].nats == map[];
    assert RouterAccounted(before, r.desired.name, created);
  }

  lemma AccountedNAT(before: Live, mid: Live, after: Live, created: seq<Record>, r: Record)
    requires Accounted(before, mid, created) && r in created && DropsOnly(mid, after, r) && after != mid
    requires r.desired.kind.NAT?
    ensures Accounted(before, after, created)
  {
    hide PlainAccounted;
    var d := r.desired;
    assert d.router in mid.routers && d.name in mid.routers[d.router].nats;
    assert NATAccounted(before, d.router, d.name, created);
    assert after.routers.Keys == mid.routers.Keys;
    assert RouterKept(mid.routers[d.router], after.routers[d.router]);
  }

  lemma AccountedPlain(before: Live, mid: Live, after: Live, created: seq<Record>, r: Record)
    requires Accounted(before, mid, created) && r in created && DropsOnly(mid, after, r) && after != mid
    requires !r.desired.kind.NAT? && !r.desired.kind.Router?
    ensures Accounted(before, after, created)
  {
    assert PlainAccounted(before, (r.desired.kind, r.desired.name), created);
  }

  /** Creating an absent resource and deleting it again leaves what was there. */
  lemma UndoMake(live: Live, d: Desired)
    requires CanMake(live, d)
    ensures Same(Dropped(Made(live, d), d), live)
    ensures d.kind.Router? ==> Made(live, d).routers[d.name].nats == map[]
  {
    if d.kind.NAT? {
      var r := live.routers[d.router];
      assert (r.nats[d.name := d.shape]) - {d.name} == r.nats;
    }
  }

  lemma SameIsInvisible(a: Live, b: Live, d: Desired)
    requires Same(a, b)
    ensures SightIn(a, d) == SightIn(b, d)
    ensures Same(Dropped(a, d), Dropped(b, d))
  {
  }

  /** `live` is `base` with exactly the recorded resources created on top, in order. */
  ghost predicate Stacked(base: Live, live: Live, created: seq<Record>) {
    CanMakeAll(base, Wanted(created)) && Same(live, MadeAll(base, Wanted(created))) && Witnessed(base, created)
  }

  /** The top record's resource is there as recorded, and deleting it uncovers the rest. */
  lemma Unstack(base: Live, live: Live, created: seq<Record>)
    requires created != [] && Stacked(base, live, created)
    ensures var r := created[|created| - 1];
            && r.incarnation.Some? && SightIn(live, r.desired) == Found(r.incarnation.value)
            && (r.desired.kind.Router? ==> r.desired.name in live.routers && live.routers[r.desired.name].nats == map[])
            && Stacked(base, Dropped(live, r.desired), created[..|created| - 1])
  {
    var last := |created| - 1;
    var r, rest := created[last], created[..last];
    assert WitnessedAt(base, created, last);
    assert created[..last + 1] == created;
    assert Wanted(created)[..last] == Wanted(rest);
    var under, over := MadeAll(base, Wanted(rest)), MadeAll(base, Wanted(created));
    assert over == Made(under, r.desired);
    SameIsInvisible(live, over, r.desired);
    UndoMake(under, r.desired);
    forall k | 0 <= k < |rest| ensures WitnessedAt(base, rest, k) {
      assert WitnessedAt(base, created, k);
      assert rest[..k] == created[..k] && rest[..k + 1] == created[..k + 1];
    }
  }

  lemma {:induction false} SelectedInOrder(plan: seq<Desired>, created: seq<Record>, at: seq<nat>, from: nat, c: nat)
    requires forall i, j :: 0 <= i < j < |plan| ==> plan[i].id != plan[j].id
    requires InPlanOrder(plan, created, at, |plan|) && from <= |plan| && c <= |created|
    requires forall k :: 0 <= k < c ==> at[k] < from
    requires forall k :: c <= k < |created| ==> from <= at[k]
    ensures Selected(plan[from..], created) == created[c..]
    decreases |plan| - from
  {
    hide RecordFor;
    if from < |plan| {
      assert plan[from..] == [plan[from]] + plan[from + 1..];
      SelectedFirst(plan[from], plan[from + 1..], created);
      if c < |created| && at[c] == from {
        RecordIsFound(created, c);
        SelectedInOrder(plan, created, at, from + 1, c + 1);
      } else {
        NoRecordFound(created, plan[from].id);
        SelectedInOrder(plan, created, at, from + 1, c);
      }
    }
  }

  lemma {:induction false} ReversedAt<T>(s: seq<T>, i: nat)
    requires i < |s|
    ensures |Reversed(s)| == |s| && Reversed(s)[i] == s[|s| - 1 - i]
  {
    if |s| > 1 {
      ReversedAt(s[1..], if i < |s| - 1 then i else 0);
    }
  }

  lemma {:induction false} SelectedAreRecords(plan: seq<Desired>, created: seq<Record>)
    ensures forall r :: r in Selected(plan, created) ==> r in created
  {
    if plan != [] {
      SelectedAreRecords(plan[1..], created);
      RecordForIsRecord(created, plan[0].id);
    }
  }

  lemma {:induction false} RecordForIsRecord(created: seq<Record>, id: string)
    ensures RecordFor(created, id).Some? ==> RecordFor(created, id).value in created
  {
    if created != [] {
      RecordForIsRecord(created[1..], id);
    }
  }

  lemma {:induction false} ReversedSame<T>(s: seq<T>)
    ensures |Reversed(s)| == |s| && forall x :: x in Reversed(s) <==> x in s
  {
    if s != [] {
      ReversedSame(s[1..]);
    }
  }

  /** Deletes what the records name, newest first. `base` is the provider before
      the creates, for the promise that a quiet provider is restored to it. */
  method CompensateStep(p: Provider, plan: seq<Desired>, operation: string, step: string, attempt: nat,
                        created: seq<Record>, grants: seq<bool>, ghost base: Live, ghost at: seq<nat>)
    returns (outcomes: seq<ResourceOutcome>, failure: Option<Failure>)
    requires forall i, j :: 0 <= i < j < |plan| ==> plan[i].id != plan[j].id
    modifies p
    ensures Accounted(old(p.live), p.live, created)
    ensures !AllAdmissible(plan, operation, step, attempt, created) ==> failure.Some? && p.live == old(p.live)
    // Reports are sound for every failure point.
    ensures failure.Some? && failure.value.mutation.NotOccurred? ==> p.live == old(p.live)
    ensures failure.Some? && failure.value.mutation.Occurred? ==> SomeGone(old(p.live), p.live, created)
    ensures failure.None? ==> forall r :: r in created ==> !Held(p.live, r.desired)
    ensures (old(p.Calm()) && Stacked(base, old(p.live), created) && InPlanOrder(plan, created, at, |plan|) &&
             AllAdmissible(plan, operation, step, attempt, created) && AllGranted(grants, |created|)) ==>
              failure.None? && Same(p.live, base) && |outcomes| == |created| && forall o :: o in outcomes ==> o.Deleted?
  {
    hide CanMake, Made, SightIn, Witnessed, CanMakeAll, MadeAll, Wanted, Selected, Reversed, RecordFor, Dropped,
      Accounted, Admissible, DropsOnly, SomeGone, GoneUpTo, Held, InPlanOrder, Stacked, AllGranted, AllAdmissible;
    outcomes, failure := [], None;
    AccountedNothing(p.live, created);
    var ok, ordered := AdmitCompensation(plan, operation, step, attempt, created);
    if !ok {
      return outcomes, Some(Failure(Authorization, NotOccurred));
    }
    SelectedAreRecords(plan, created);
    ReversedSame(Selected(plan, created));
    ghost var stacked := p.Calm() && Stacked(base, p.live, created) && InPlanOrder(plan, created, at, |plan|) &&
                         AllGranted(grants, |created|);
    if stacked {
      DeletesAreReversed(plan, created, at);
    }
    var mutated := false;
    assert created[..|created|] == created;
    NoneGoneYet(p.live, ordered);
    for i := 0 to |ordered|
      invariant Accounted(old(p.live), p.live, created)
      invariant |outcomes| == i && (!mutated ==> p.live == old(p.live))
      invariant mutated ==> SomeGone(old(p.live), p.live, created)
      invariant GoneUpTo(p.live, ordered, i)
      invariant stacked ==>
                  && p.Calm() && |ordered| == |created| && Stacked(base, p.live, created[..|created| - i])
                  && forall o :: o in outcomes ==> o.Deleted?
    {
      var r := ordered[i];
      AdmittedHasIncarnation(plan, operation, step, attempt, created, r);
      if stacked {
        NextDelete(base, p.live, created, ordered, grants, i);
      }
      ghost var before := p.live;
      var outcome, failed := DeleteResource(p, r, i < |grants| && grants[i]);
      AccountedDrop(old(p.live), before, p.live, created, r);
      GoneAfterDelete(old(p.live), before, p.live, created, r);
      if failed.Some? {
        failure := failed;
        if mutated && failed.value.mutation.NotOccurred? {
          failure := Some(failed.value.(mutation := Occurred));
        }
        return;
      }
      GoneOneMore(before, p.live, ordered, i);
      assert forall o :: o in outcomes + [outcome] ==> o in outcomes || o == outcome;
      outcomes := outcomes + [outcome];
      mutated := mutated || outcome.Deleted?;
    }
    AllGone(plan, operation, step, attempt, created, ordered, p.live);
    if stacked {
      assert created[..0] == [];
      StackedOnNothing(base, p.live);
    }
  }

  lemma NoneGoneYet(live: Live, ordered: seq<Record>)
    ensures GoneUpTo(live, ordered, 0)
  {
  }

  lemma AllGone(plan: seq<Desired>, operation: string, step: string, attempt: nat, created: seq<Record>,
                ordered: seq<Record>, live: Live)
    requires AllAdmissible(plan, operation, step, attempt, created) && ordered == Reversed(Selected(plan, created))
    requires GoneUpTo(live, ordered, |ordered|)
    ensures forall r :: r in created ==> !Held(live, r.desired)
  {
    hide Held, Selected, Reversed;
    forall r | r in created ensures !Held(live, r.desired) {
      SelectedHas(plan, created, r);
      ReversedSame(Selected(plan, created));
      var k :| 0 <= k < |ordered| && ordered[k] == r;
    }
  }

  lemma DeletesAreReversed(plan: seq<Desired>, created: seq<Record>, at: seq<nat>)
    requires forall i, j :: 0 <= i < j < |plan| ==> plan[i].id != plan[j].id
    requires InPlanOrder(plan, created, at, |plan|)
    ensures Reversed(Selected(plan, created)) == Reversed(created)
    ensures |Reversed(created)| == |created|
  {
    hide Selected, Reversed;
    SelectedInOrder(plan, created, at, 0, 0);
    assert plan[0..] == plan && created[0..] == created;
    ReversedSame(created);
  }

  /** In a quiet compensation the next delete meets the top of the stack. */
  lemma NextDelete(base: Live, live: Live, created: seq<Record>, ordered: seq<Record>, grants: seq<bool>, i: nat)
    requires i < |created| && ordered == Reversed(created) && |ordered| == |created|
    requires Stacked(base, live, created[..|created| - i]) && AllGranted(grants, |created|)
    ensures var r := ordered[i];
            && r.incarnation.Some? && SightIn(live, r.desired) == Found(r.incarnation.value)
            && (r.desired.kind.Router? ==> r.desired.name in live.routers && live.routers[r.desired.name].nats == map[])
            && Stacked(base, Dropped(live, r.desired), created[..|created| - (i + 1)])
            && i < |grants| && grants[i]
  {
    hide Stacked, SightIn, Dropped, Reversed;
    ReversedAt(created, i);
    var left := created[..|created| - i];
    Unstack(base, live, left);
    assert left[..|left| - 1] == created[..|created| - (i + 1)];
    assert left[|left| - 1] == ordered[i];
  }

  lemma AdmittedHasIncarnation(plan: seq<Desired>, operation: string, step: string, attempt: nat,
                               created: seq<Record>, r: Record)
    requires AllAdmissible(plan, operation, step, attempt, created) && r in created
    ensures r.incarnation.Some?
  {
  }

  lemma StackedOnNothing(base: Live, live: Live)
    ensures Stacked(base, live, []) ==> Same(live, base)
  {
  }

  /** Applies a step under any disturbance and then compensates on a quiet
      provider. Whatever the apply reported, unless it does not know whether its
      last create took effect, the provider is restored, provided each record
      carries the incarnation seen after its create. One record without makes
      the compensation refuse the whole list and leave everything created in place. */
  method ApplyThenCompensate(p: Provider, plan: seq<Desired>, applyGrants: seq<bool>, grants: seq<bool>,
                             operation: string, step: string, attempt: nat)
    returns (created: seq<Record>, failure: Option<Failure>, compensated: bool)
    requires forall i, j :: 0 <= i < j < |plan| ==> plan[i].id != plan[j].id
    requires attempt >= 1 && AllGranted(grants, |plan|)
    modifies p
    ensures AllIdentified(created) && (failure.Some? ==> !failure.value.mutation.Unknown?) ==>
              compensated && Same(p.live, old(p.live))
    ensures !AllIdentified(created) ==>
              && !compensated && failure.Some? && failure.value.mutation.Occurred?
              && CanMakeAll(old(p.live), Wanted(created)) && p.live == MadeAll(old(p.live), Wanted(created))
    ensures failure.None? ==> AllIdentified(created)
    ensures old(p.Calm()) && AllGranted(applyGrants, |plan|) && Apart(plan) ==>
              (failure.None? <==> AllStartable(old(p.live), plan))
  {
    hide CanMake, Made, SightIn, CanMakeAll, MadeAll, Wanted, WitnessedAt, Dropped, Accounted, Apart, AllStartable,
      SomeGone, Held, FoundUpTo, Coherent;
    ghost var base := p.live;
    ghost var made, at;
    created, failure, made, at := ApplyStep(p, plan, true, applyGrants, operation, step, attempt);
    p.script := [];
    if AllIdentified(created) {
      CreatedAreAdmissible(plan, operation, step, attempt, created, at);
    }
    var outcomes, undone := CompensateStep(p, plan, operation, step, attempt, created, grants, base, at);
    compensated := undone.None?;
  }

  lemma {:induction false} OrderedPositions(at: seq<nat>, bound: nat)
    requires forall k :: 0 <= k < |at| ==> at[k] < bound
    requires forall j, k :: 0 <= j < k < |at| ==> at[j] < at[k]
    ensures |at| <= bound
  {
    if at != [] {
      OrderedPositions(at[..|at| - 1], at[|at| - 1]);
    }
  }

  lemma CreatedAreAdmissible(plan: seq<Desired>, operation: string, step: string, attempt: nat, created: seq<Record>,
                             at: seq<nat>)
    requires forall i, j :: 0 <= i < j < |plan| ==> plan[i].id != plan[j].id
    requires attempt >= 1 && InPlanOrder(plan, created, at, |plan|)
    requires Stamped(created, operation, step, attempt) && AllIdentified(created)
    ensures AllAdmissible(plan, operation, step, attempt, created) && |created| <= |plan|
  {
    OrderedPositions(at, |plan|);
  }

  // ----- Subnet ranges between preflight and create -----

  datatype SubnetRange = SubnetRange(
    name: string, project: string, region: string, cidr: string, secondary: bool, providerID: string)

  function Count<T(!new)>(counts: map<T, nat>, r: T): nat {
    if r in counts then counts[r] else 0
  }

  /** The counts are the multiplicities of `all` less those already matched. */
  ghost predicate Counts<T(!new)>(counts: map<T, nat>, all: multiset<T>, matched: multiset<T>) {
    forall r :: Count(counts, r) + matched[r] == all[r]
  }

  lemma CountUp<T(!new)>(counts: map<T, nat>, all: multiset<T>, r: T)
    requires Counts(counts, all, multiset{})
    ensures Counts(counts[r := Count(counts, r) + 1], all + multiset{r}, multiset{})
  {
  }

  lemma CountDown<T(!new)>(counts: map<T, nat>, all: multiset<T>, matched: multiset<T>, r: T)
    requires Counts(counts, all, matched) && Count(counts, r) > 0
    ensures Counts(counts[r := Count(counts, r) - 1], all, matched + multiset{r})
  {
  }

  lemma CountedOut<T(!new)>(counts: map<T, nat>, all: multiset<T>, s: seq<T>, i: nat)
    requires i < |s| && Counts(counts, all, multiset(s[..i])) && Count(counts, s[i]) == 0
    ensures multiset(s) != all
  {
    OneLonger(s, i);
    assert multiset(s)[s[i]] > all[s[i]];
  }

  lemma CountedAll<T(!new)>(counts: map<T, nat>, all: multiset<T>, matched: multiset<T>)
    requires Counts(counts, all, matched) && |all| == |matched|
    ensures all == matched
  {
    assert forall r :: matched[r] <= all[r];
    SubMultisetOfSameSize(matched, all);
  }

  lemma OneLonger<T>(s: seq<T>, i: nat)
    requires i < |s|
    ensures multiset(s[..i + 1]) == multiset(s[..i]) + multiset{s[i]}
    ensures forall x :: multiset(s[..i + 1])[x] <= multiset(s)[x]
  {
    assert s[..i + 1] == s[..i] + [s[i]];
    assert s == s[..i + 1] + s[i + 1..];
  }

  lemma SubMultisetOfSameSize<T>(a: multiset<T>, b: multiset<T>)
    requires a <= b && |a| == |b|
    ensures a == b
  {
    assert b == a + (b - a);
    assert |b - a| == 0;
  }

  /** The observed ranges are the sealed ones, with multiplicity and in any order. */
  method SameSubnetRanges(left: seq<SubnetRange>, right: seq<SubnetRange>) returns (same: bool)
    ensures same <==> multiset(left) == multiset(right)
  {
    hide Count, Counts;
    assert |multiset(left)| == |left| && |multiset(right)| == |right|;
    if |left| != |right| {
      return false;
    }
    var counts: map<SubnetRange, nat> := map[];
    assert Counts(counts, multiset(left[..0]), multiset{}) by {
      CountNothing<SubnetRange>();
      assert left[..0] == [];
    }
    for i := 0 to |left|
      invariant Counts(counts, multiset(left[..i]), multiset{})
    {
      OneLonger(left, i);
      CountUp(counts, multiset(left[..i]), left[i]);
      counts := counts[left[i] := Count(counts, left[i]) + 1];
    }
    assert left[..|left|] == left && right[..|right|] == right && multiset(right[..0]) == multiset{};
    for i := 0 to |right|
      invariant Counts(counts, multiset(left), multiset(right[..i]))
    {
      if Count(counts, right[i]) == 0 {
        CountedOut(counts, multiset(left), right, i);
        return false;
      }
      OneLonger(right, i);
      CountDown(counts, multiset(left), multiset(right[..i]), right[i]);
      counts := counts[right[i] := Count(counts, right[i]) - 1];
    }
    CountedAll(counts, multiset(left), multiset(right));
    return true;
  }

  lemma CountNothing<T(!new)>()
    ensures Counts<T>(map[], multiset{}, multiset{})
  {
  }
}
