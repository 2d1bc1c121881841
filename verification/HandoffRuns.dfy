/** Whole histories of the handoff: many interrupted runs, then an undisturbed one. */
module HandoffRuns {
  import opened Common
  import opened AuditProvider
  import opened HandoffWorld
  import opened Handoff

  /** One invocation by the operator and everything that disturbs it. */
  datatype Run = Run(envelope: Envelope, locking: bool, script: seq<Disturbance<Cloud>>, now: int, ticks: seq<int>)

  predicate Unforeign(run: Run) {
    forall i :: 0 <= i < |run.script| ==> run.script[i].foreign.None?
  }

  method Operate(world: World, run: Run)
    requires world.Valid()
    modifies world
    ensures world.Valid() && old(world.log) <= world.log
    ensures old(world.Resumable(run.envelope)) && Unforeign(run) ==> world.Undisturbed(run.envelope)
    ensures old(world.Resumable(run.envelope) && world.Orphaned()) && Unforeign(run) ==> world.Orphaned()
  {
    hide Holds, ValidChain, SafeLog, Canonical, CloudAfter, Expected, Paired;
    world.script, world.now, world.ticks := run.script, run.now, run.ticks;
    if run.locking {
      var _ := LockAuditRetention(world, run.envelope);
    } else {
      var _ := Bootstrap(world, run.envelope);
    }
  }

  /** Under any foreign writers, lost replies, crashes and clocks, and whatever
      envelope each run is given, from an empty directory on: the durable chain
      stays readable, and the event log stays safe (what precedes each
      irreversible call and each retention-locked record). */
  method AnyHistory(generation: nat, runs: seq<Run>) returns (world: World)
    ensures world.Valid()
    ensures world.envelope.Some? ==>
              && SafeLog(world.envelope.value, world.log)
              && Readable(world.envelope.value, world.files)
  {
    world := new World(generation);
    for i := 0 to |runs|
      invariant fresh(world) && world.Valid()
    {
      Operate(world, runs[i]);
    }
  }

  /** However often the engine was interrupted while handing off one envelope,
      the effects on the provider are a prefix of the six canonical mutations. */
  method Interrupted(e: Envelope, generation: nat, runs: seq<Run>) returns (world: World)
    requires forall i :: 0 <= i < |runs| ==> Unforeign(runs[i]) && runs[i].envelope == e
    ensures fresh(world) && world.Valid() && world.Undisturbed(e)
    ensures |world.effects| <= 6 && world.effects == Canonical(e)[..|world.effects|]
  {
    hide Holds, ValidChain, SafeLog, Canonical, CloudAfter, Expected, Paired;
    world := new World(generation);
    StartsResumable(world, e);
    for i := 0 to |runs|
      invariant fresh(world) && world.Valid() && world.Undisturbed(e)
    {
      Operate(world, runs[i]);
    }
  }

  /** A clock inside the approval window that starts at or after the last record and never moves back. */
  predicate Punctual(e: Envelope, chain: seq<HandoffRecord>, now: int, ticks: seq<int>) {
    && e.ValidAt(now)
    && (chain != [] ==> chain[|chain| - 1].recordedAt <= now)
    && (forall i :: 0 <= i < |ticks| ==> e.ValidAt(ticks[i]) && now <= ticks[i])
    && (forall i, j :: 0 <= i < j < |ticks| ==> ticks[i] <= ticks[j])
  }

  /** One further run of Bootstrap and LockAuditRetention with a quiet provider
      and a punctual clock performs exactly the missing mutations, unless an
      interruption fell between the bucket's creation and its record: that
      bucket is never adopted. */
  method Finish(world: World, e: Envelope, now: int, ticks: seq<int>) returns (bootstrapped: bool, locked: bool)
    requires world.Valid() && world.Undisturbed(e)
    modifies world
    ensures world.Valid() && world.Undisturbed(e)
    ensures old(world.Orphaned()) ==> !bootstrapped && !locked && world.Orphaned()
    ensures !old(world.Orphaned()) && Punctual(e, old(world.chain), now, ticks) ==>
              bootstrapped && locked && world.effects == Canonical(e) && |world.chain| == 10
  {
    hide Holds, ValidChain, SafeLog, Canonical, CloudAfter, Expected, Paired;
    world.script, world.now, world.ticks := [], now, ticks;
    bootstrapped := Bootstrap(world, e);
    locked := LockAuditRetention(world, e);
  }

  /** Any number of interrupted runs, then an undisturbed one. `left`: the chain the interruptions left. */
  method InterruptedThenFinished(e: Envelope, generation: nat, runs: seq<Run>, now: int, ticks: seq<int>)
    returns (world: World, bootstrapped: bool, locked: bool, ghost left: seq<HandoffRecord>, ghost orphaned: bool)
    requires forall i :: 0 <= i < |runs| ==> Unforeign(runs[i]) && runs[i].envelope == e
    ensures world.Undisturbed(e)
    ensures |world.effects| <= 6 && world.effects == Canonical(e)[..|world.effects|]
    ensures orphaned ==> !bootstrapped && !locked && world.Orphaned()
    ensures !orphaned && Punctual(e, left, now, ticks) ==>
              bootstrapped && locked && world.effects == Canonical(e) && |world.chain| == 10
  {
    hide Holds, ValidChain, SafeLog, Canonical, CloudAfter, Expected, Paired, Punctual;
    world := Interrupted(e, generation, runs);
    left, orphaned := world.chain, world.Orphaned();
    bootstrapped, locked := Finish(world, e, now, ticks);
  }

  lemma StartsResumable(world: World, e: Envelope)
    requires world.envelope.None? && world.Valid() && world.cloud == Cloud(None, map[], world.base)
    requires world.script == []
    ensures world.Undisturbed(e)
  {
  }
}
