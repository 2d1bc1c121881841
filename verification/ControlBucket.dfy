/** The control bucket step, converging after crashes, and the comparison of bucket bindings. */
module ControlBucket {
  import opened Common
  import opened Text
  import opened Collections
  import opened AuditProvider

  /** Thirty days. */
  const SOFT_DELETE_SECONDS: int := 30 * 24 * 60 * 60

  datatype ControlState = ControlState(bucket: BucketState, softDeleteSeconds: int)

  /** The exact desired configuration. */
  predicate Exact(s: ControlState, id: BucketIdentity) {
    && s.bucket.identity == id && s.bucket.uniformAccess && s.bucket.publicAccessPrevention == "enforced"
    && s.bucket.storageClass == "STANDARD" && s.bucket.versioning && !s.bucket.deleteRule && !s.bucket.retentionLocked
    && s.bucket.retentionSeconds == 0 && s.softDeleteSeconds == SOFT_DELETE_SECONDS
  }

  /** What the create call makes, before versioning is enabled. */
  function Created(id: BucketIdentity): ControlState {
    ControlState(BucketState(id, true, "enforced", "STANDARD", false, 0, false, 0, false, 1), SOFT_DELETE_SECONDS)
  }

  function Versioned(s: ControlState): ControlState {
    s.(bucket := s.bucket.(versioning := true, metageneration := s.bucket.metageneration + 1))
  }

  datatype CallKind = Creation | Versioning

  /** One provider write of the step: what was recorded at the call, the bucket it met and the bucket it left. */
  datatype Call = Call(kind: CallKind, claimed: bool, created: bool, met: Option<ControlState>, left: Option<ControlState>)

  /** A create is claimed and takes effect only where nothing is; versioning is
      enabled only behind the creation record. Either way a bucket met while no
      creation is recorded is left as it was. */
  predicate Careful(id: BucketIdentity, call: Call) {
    && (call.kind.Creation? ==>
          call.claimed && (call.left == call.met || (call.met.None? && call.left == Some(Created(id)))))
    && (call.kind.Versioning? ==>
          call.created && (call.left == call.met || (call.met.Some? && call.left == Some(Versioned(call.met.value)))))
    && (call.met.Some? && !call.created ==> call.left == call.met)
  }

  /** Every call from the `n`th on was careful. */
  ghost predicate CarefulFrom(id: BucketIdentity, calls: seq<Call>, n: nat) {
    forall i :: n <= i < |calls| ==> Careful(id, calls[i])
  }

  /** The provider's bucket and the two durable records of the step. */
  class ControlWorld {
    var bucket: Option<ControlState>
    var claimed: bool
    var created: bool
    var script: seq<Disturbance<Option<ControlState>>>
    ghost var creates: nat
    ghost var calls: seq<Call>
    /** The approval window was checked since the last provider write. */
    ghost var cleared: bool

    constructor ()
      ensures bucket.None? && !claimed && !created && script == [] && creates == 0 && calls == [] && !cleared
    {
      bucket, claimed, created, script, creates, calls, cleared := None, false, false, [], 0, [], false;
    }

    ghost predicate Quiet()
      reads this
    {
      forall i :: 0 <= i < |script| ==> script[i].foreign.None?
    }

    ghost predicate Calm()
      reads this
    {
      forall i :: 0 <= i < |script| ==> script[i] == Disturbance(None, Clean)
    }

    /** What this step alone, however often interrupted, can have left behind. */
    ghost predicate Own(id: BucketIdentity)
      reads this
    {
      && (created ==> claimed && bucket.Some?)
      && (bucket.Some? ==> claimed && (bucket.value == Created(id) || (created && bucket.value == Versioned(Created(id)))))
      && creates == (if bucket.Some? then 1 else 0)
    }

    /** The process died between creating the bucket and recording it. */
    ghost predicate Orphaned()
      reads this
    {
      bucket.Some? && !created
    }

    method Turn() returns (fault: Fault)
      modifies this`script, this`bucket
      ensures old(Quiet()) ==> Quiet() && bucket == old(bucket)
      ensures old(Calm()) ==> Calm() && fault.Clean?
    {
      if script == [] {
        return Clean;
      }
      var head := script[0];
      script := script[1..];
      if head.foreign.Some? {
        bucket := head.foreign.value;
      }
      return head.fault;
    }

    method Describe() returns (ok: bool, state: Option<ControlState>)
      modifies this`script, this`bucket
      ensures ok ==> state == bucket
      ensures old(Quiet()) ==> Quiet() && bucket == old(bucket)
      ensures old(Calm()) ==> Calm() && ok
    {
      var fault := Turn();
      return fault.Clean?, bucket;
    }

    /** The last look at the clock before a provider write. */
    method Authorize() returns (ok: bool)
      modifies this`script, this`bucket, this`cleared
      ensures ok ==> cleared
      ensures old(Quiet()) ==> Quiet() && bucket == old(bucket)
      ensures old(Calm()) ==> Calm() && ok
    {
      var fault := Turn();
      cleared := fault.Clean?;
      return fault.Clean?;
    }

    method Create(id: BucketIdentity) returns (ok: bool)
      requires cleared && claimed
      modifies this`script, this`bucket, this`creates, this`calls, this`cleared
      ensures !cleared
      ensures old(Quiet()) ==> Quiet() && (bucket == old(bucket) || (old(bucket).None? && bucket == Some(Created(id))))
      ensures old(Quiet()) ==> creates == old(creates) + (if bucket == old(bucket) then 0 else 1)
      ensures creates <= old(creates) + 1
      ensures old(calls) < calls && CarefulFrom(id, calls, |old(calls)|)
      ensures ok ==> bucket == Some(Created(id)) && creates == old(creates) + 1
      ensures old(Calm()) ==> Calm() && (old(bucket).None? ==> ok)
    {
      var fault := Turn();
      ghost var met := bucket;
      if fault.LostBefore? || bucket.Some? {
        calls, cleared := calls + [Call(Creation, claimed, created, met, bucket)], false;
        return false;
      }
      bucket, creates := Some(Created(id)), creates + 1;
      calls, cleared := calls + [Call(Creation, claimed, created, met, bucket)], false;
      return fault.Clean?;
    }

    method EnableVersioning(ghost id: BucketIdentity) returns (ok: bool)
      requires cleared && created
      modifies this`script, this`bucket, this`calls, this`cleared
      ensures !cleared
      ensures old(Quiet()) ==> Quiet()
      ensures old(Quiet()) ==> bucket == old(bucket) || (old(bucket).Some? && bucket == Some(Versioned(old(bucket).value)))
      ensures old(Quiet()) && ok ==> old(bucket).Some? && bucket == Some(Versioned(old(bucket).value))
      ensures old(calls) < calls && CarefulFrom(id, calls, |old(calls)|)
      ensures old(Calm()) ==> Calm() && (old(bucket).Some? ==> ok)
    {
      var fault := Turn();
      ghost var met := bucket;
      if fault.LostBefore? || bucket.None? {
        calls, cleared := calls + [Call(Versioning, claimed, created, met, bucket)], false;
        return false;
      }
      bucket := Some(Versioned(bucket.value));
      calls, cleared := calls + [Call(Versioning, claimed, created, met, bucket)], false;
      return fault.Clean?;
    }

    method RecordClaim() returns (ok: bool)
      modifies this`script, this`bucket, this`claimed
      ensures old(Quiet()) ==> Quiet() && bucket == old(bucket)
      ensures old(claimed) ==> claimed
      ensures ok ==> claimed
      ensures old(Calm()) ==> Calm() && ok
    {
      var fault := Turn();
      if fault.LostBefore? {
        return false;
      }
      claimed := true;
      return fault.Clean?;
    }

    method RecordCreated() returns (ok: bool)
      modifies this`script, this`bucket, this`created
      ensures old(Quiet()) ==> Quiet() && bucket == old(bucket)
      ensures old(created) ==> created
      ensures ok ==> created
      ensures old(Calm()) ==> Calm() && ok
    {
      var fault := Turn();
      if fault.LostBefore? {
        return false;
      }
      created := true;
      return fault.Clean?;
    }

    /** Claims, creates and records a bucket that was observed absent. */
    method ClaimAndCreate(id: BucketIdentity) returns (ok: bool, mutated: bool, state: Option<ControlState>)
      requires !created
      modifies this
      ensures ok ==> claimed && created && mutated && state.Some?
      ensures !mutated ==> calls == old(calls) && creates == old(creates) && !created
      ensures old(calls) <= calls && CarefulFrom(id, calls, |old(calls)|)
      ensures creates <= old(creates) + 1
      ensures old(Quiet() && Own(id)) && old(bucket).None? ==> Quiet() && Own(id) && (ok ==> state == bucket)
      ensures old(Calm() && Own(id)) && old(bucket).None? ==> ok && Calm()
    {
      mutated, state := false, None;
      if !claimed {
        var recorded := RecordClaim();
        if !recorded {
          return false, false, None;
        }
      }
      var authorized := Authorize();
      if !authorized {
        return false, false, None;
      }
      mutated := true;
      var made := Create(id);
      if !made {
        return false, true, None;
      }
      var recorded := RecordCreated();
      if !recorded {
        return false, true, None;
      }
      var seen;
      seen, state := Describe();
      return seen && state.Some?, true, state;
    }

    /** Creates or converges the control bucket. An existing bucket is taken over
        only when the durable records say this operation created it. */
    method Converge(id: BucketIdentity) returns (verified: bool, mutated: bool, ghost last: Option<ControlState>)
      modifies this
      ensures verified ==> created && last.Some? && Exact(last.value, id)
      ensures !mutated ==> calls == old(calls)
      // In every run, whoever else writes.
      ensures old(calls) <= calls && CarefulFrom(id, calls, |old(calls)|)
      ensures creates <= old(creates) + 1 && (old(created) ==> creates == old(creates))
      ensures old(Quiet()) && old(Orphaned()) ==>
                !verified && !mutated && bucket == old(bucket) && !created && creates == old(creates)
      ensures old(Quiet() && Own(id)) ==> Quiet() && Own(id) && (verified ==> last == bucket)
      ensures old(Calm() && Own(id)) ==> (verified <==> !old(Orphaned()))
    {
      mutated, last := false, None;
      var wasCreated := created;
      var seen, state := Describe();
      if !seen {
        return false, false, None;
      }
      if state.Some? && !wasCreated {
        return false, false, state;
      }
      if state.None? && wasCreated {
        return false, false, None;
      }
      if state.None? {
        var ok;
        ok, mutated, state := ClaimAndCreate(id);
        if !ok {
          return false, mutated, None;
        }
      }
      last := state;
      if !state.value.bucket.versioning {
        var authorized := Authorize();
        if !authorized {
          return false, mutated, last;
        }
        mutated := true;
        var enabled := EnableVersioning(id);
        if !enabled {
          return false, true, last;
        }
        seen, state := Describe();
        if !seen || state.None? {
          return false, true, last;
        }
        last := state;
      }
      return Exact(state.value, id), mutated, last;
    }

    /** Interrupted any number of times with nobody else writing, a final calm
        attempt verifies the bucket unless a creation went unrecorded; the
        bucket is created at most once over all attempts. */
    method InterruptedThenConverged(id: BucketIdentity, scripts: seq<seq<Disturbance<Option<ControlState>>>>)
      returns (verified: bool)
      requires Own(id)
      requires forall i, j :: 0 <= i < |scripts| && 0 <= j < |scripts[i]| ==> scripts[i][j].foreign.None?
      modifies this
      ensures Own(id) && creates <= 1
      ensures old(calls) <= calls && CarefulFrom(id, calls, |old(calls)|)
      ensures verified <==> created
      ensures verified ==> bucket.Some? && Exact(bucket.value, id)
      ensures !verified ==> Orphaned()
      ensures old(Orphaned()) ==> !verified && bucket == old(bucket)
    {
      for i := 0 to |scripts|
        invariant Own(id) && old(calls) <= calls && CarefulFrom(id, calls, |old(calls)|)
        invariant old(Orphaned()) ==> Orphaned() && bucket == old(bucket)
      {
        script := scripts[i];
        var attempted, mutated, last := Converge(id);
      }
      script := [];
      var mutated;
      ghost var last;
      verified, mutated, last := Converge(id);
    }
  }

  // ----- Bindings -----

  datatype BucketBinding = BucketBinding(bucket: string, member: string, role: string)

  /** The rendered bindings of one bucket. */
  ghost function Rendered(rendered: seq<BucketBinding>, bucket: string): set<BucketBinding> {
    set b | b in rendered && b.bucket == bucket
  }

  predicate EqualPolicy(observed: seq<BucketBinding>, expected: set<BucketBinding>) {
    |observed| == |expected| && forall b :: b in observed ==> b in expected
  }

  method BindingsEqualPolicy(observed: seq<BucketBinding>, rendered: seq<BucketBinding>, bucket: string) returns (equal: bool)
    ensures equal <==> EqualPolicy(observed, Rendered(rendered, bucket))
  {
    var expected: set<BucketBinding> := {};
    for i := 0 to |rendered|
      invariant expected == set k | 0 <= k < i && rendered[k].bucket == bucket :: rendered[k]
    {
      if rendered[i].bucket == bucket {
        expected := expected + {rendered[i]};
      }
    }
    forall b ensures b in expected <==> b in Rendered(rendered, bucket) {
      if b in Rendered(rendered, bucket) {
        var k :| 0 <= k < |rendered| && rendered[k] == b;
      }
    }
    assert expected == Rendered(rendered, bucket);
    if |observed| != |expected| {
      return false;
    }
    for i := 0 to |observed|
      invariant forall k :: 0 <= k < i ==> observed[k] in expected
    {
      if observed[i] !in expected {
        assert observed[i] in observed;
        return false;
      }
    }
    return true;
  }

  /** Without repeats the comparison is equality of sets. */
  lemma DistinctComparesSets(observed: seq<BucketBinding>, expected: set<BucketBinding>)
    requires Distinct(observed)
    ensures EqualPolicy(observed, expected) <==> Elements(observed) == expected
  {
    DistinctCount(observed);
    if EqualPolicy(observed, expected) {
      SubsetOfSameSize(Elements(observed), expected);
    }
  }

  /** The comparison is set equality against every policy exactly when nothing
      observed repeats, or something observed belongs to another bucket (then
      both refuse). */
  lemma ComparesSetsExactlyWhen(observed: seq<BucketBinding>, bucket: string)
    ensures (forall rendered: seq<BucketBinding> ::
               EqualPolicy(observed, Rendered(rendered, bucket)) <==> Elements(observed) == Rendered(rendered, bucket)) <==>
            Distinct(observed) || exists b :: b in observed && b.bucket != bucket
  {
    if Distinct(observed) {
      forall rendered: seq<BucketBinding>
        ensures EqualPolicy(observed, Rendered(rendered, bucket)) <==> Elements(observed) == Rendered(rendered, bucket)
      {
        DistinctComparesSets(observed, Rendered(rendered, bucket));
      }
    } else if b :| b in observed && b.bucket != bucket {
      forall rendered: seq<BucketBinding>
        ensures EqualPolicy(observed, Rendered(rendered, bucket)) <==> Elements(observed) == Rendered(rendered, bucket)
      {
        assert b !in Rendered(rendered, bucket) && b in Elements(observed);
      }
    } else {
      assert Rendered(observed, bucket) == Elements(observed);
      RepeatsCount(observed);
      assert !EqualPolicy(observed, Rendered(observed, bucket));
    }
  }

  lemma {:induction false} RepeatsCount(observed: seq<BucketBinding>)
    requires !Distinct(observed)
    ensures |Elements(observed)| < |observed|
  {
    var last := |observed| - 1;
    var rest := observed[..last];
    assert observed == rest + [observed[last]];
    DistinctCount(rest);
    if observed[last] in rest {
      assert Elements(observed) == Elements(rest);
    } else {
      assert Elements(observed) == Elements(rest) + {observed[last]};
      RepeatsCount(rest);
    }
  }

  /** A repeated grant can stand in for a missing one: the comparison accepts. */
  lemma RepeatHidesAbsence(bucket: string, present: BucketBinding, missing: BucketBinding)
    requires present != missing && present.bucket == bucket == missing.bucket
    ensures EqualPolicy([present, present], Rendered([present, missing], bucket))
    ensures missing in Rendered([present, missing], bucket) && missing !in [present, present]
  {
    assert Rendered([present, missing], bucket) == {present, missing};
  }
}
