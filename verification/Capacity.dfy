/** The capacity proof: a complete planned inventory, digested and within every cap. */
module Capacity {
  import opened Common
  import opened Text
  import opened Collections
  import opened Evidence
  import opened Firewall
  import opened FirewallProof

  const INSTANCES := "instances"
  const DISKS := "disks"

  datatype PlannedInstance = PlannedInstance(identity: Identity, runID: string, machine: MachineShape)
  datatype PlannedDisk = PlannedDisk(identity: Identity, runID: string, sizeGiB: int)

  /** What the snapshot digest is taken of. */
  datatype Snapshot = Snapshot(
    plan: PlanIdentity, instances: seq<PlannedInstance>, disks: seq<PlannedDisk>, lifetime: int, costMicros: int)

  datatype CapacityInput = CapacityInput(
    plan: PlanIdentity, snapshot: Snapshot, instances: seq<PlannedInstance>, disks: seq<PlannedDisk>, lifetime: int,
    costMicros: int)

  function InstanceKey(i: PlannedInstance): string { i.identity.canonicalKey }
  function DiskKey(d: PlannedDisk): string { d.identity.canonicalKey }
  predicate InstanceLess(a: PlannedInstance, b: PlannedInstance) { LexLess(InstanceKey(a), InstanceKey(b)) }
  predicate DiskLess(a: PlannedDisk, b: PlannedDisk) { LexLess(DiskKey(a), DiskKey(b)) }

  function SnapshotOf(c: CapacityInput): Snapshot {
    Snapshot(c.plan, SortBy(InstanceLess, c.instances), SortBy(DiskLess, c.disks), c.lifetime, c.costMicros)
  }

  function RunPrefix(runID: string): string { TEST_PREFIX + runID + "-" }

  predicate RunScoped(name: string, runID: string) {
    RunPrefix(runID) <= name && |name| != |RunPrefix(runID)|
  }

  predicate InstanceOk(i: PlannedInstance, runID: string) {
    && ValidIdentity(i.identity)
    && i.identity.service == COMPUTE && i.identity.kind == INSTANCES && i.identity.scope.Zone?
    && RunScoped(i.identity.name, runID) && i.runID == runID
    && i.machine.vcpus > 0 && i.machine.memoryMB > 0
  }

  predicate DiskOk(d: PlannedDisk, runID: string) {
    && ValidIdentity(d.identity)
    && d.identity.service == COMPUTE && d.identity.kind == DISKS && (d.identity.scope.Zone? || d.identity.scope.Region?)
    && RunScoped(d.identity.name, runID) && d.runID == runID && d.sizeGiB > 0
  }

  predicate LimitsOk(l: RunLimits) {
    && l.maxMachine.vcpus > 0 && l.maxMachine.memoryMB > 0 && l.maxDiskGiB > 0 && l.maxInstances > 0
    && l.maxLifetime > 0 && l.maxCostMicros >= 0
  }

  datatype RunRequest = RunRequest(machine: MachineShape, diskGiB: int, instances: int, lifetime: int, costMicros: int)

  predicate ValidateRunRequest(l: RunLimits, r: RunRequest) {
    && LimitsOk(l)
    && r.machine.vcpus > 0 && r.machine.memoryMB > 0 && r.diskGiB >= 0 && r.instances > 0 && r.lifetime > 0
    && r.costMicros >= 0
    && r.machine.vcpus <= l.maxMachine.vcpus && r.machine.memoryMB <= l.maxMachine.memoryMB
    && r.diskGiB <= l.maxDiskGiB && r.instances <= l.maxInstances && r.lifetime <= l.maxLifetime
    && r.costMicros <= l.maxCostMicros
  }

  /** A target that is a planned machine or disk must be planned. */
  ghost predicate TargetPlanned(c: CapacityInput, t: Target) {
    && (t.identity.service == COMPUTE && t.identity.kind == INSTANCES ==>
          exists i :: i in c.instances && InstanceKey(i) == TargetKey(t))
    && (t.identity.service == COMPUTE && t.identity.kind == DISKS ==>
          exists d :: d in c.disks && DiskKey(d) == TargetKey(t))
  }

  /** Every planned machine and disk fits the caps, one by one. */
  ghost predicate WithinCaps(c: CapacityInput, l: RunLimits) {
    && (forall i :: i in c.instances ==>
          i.machine.vcpus <= l.maxMachine.vcpus && i.machine.memoryMB <= l.maxMachine.memoryMB)
    && (forall d :: d in c.disks ==> d.sizeGiB <= l.maxDiskGiB)
    && |c.instances| <= l.maxInstances && c.lifetime <= l.maxLifetime && c.costMicros <= l.maxCostMicros
  }

  ghost predicate CapacityProved(g: Grammar, c: CapacityInput, l: RunLimits, runID: string, targets: seq<Target>) {
    && PlanOk(c.plan) && c.instances != [] && c.lifetime > 0 && c.costMicros >= 0
    && c.snapshot == SnapshotOf(c) && g.patterns.runID(runID)
    && (forall i :: i in c.instances ==> InstanceOk(i, runID)) && DistinctBy(InstanceKey, c.instances)
    && (forall d :: d in c.disks ==> DiskOk(d, runID)) && DistinctBy(DiskKey, c.disks)
    && (forall t :: t in targets ==> TargetPlanned(c, t))
    && LimitsOk(l) && WithinCaps(c, l)
  }

  function Max(a: int, b: int): int { if a < b then b else a }

  /** Whatever bound every element so far meets, the running maximum meets too. */
  ghost predicate Tops(values: seq<int>, top: int) {
    (forall i :: 0 <= i < |values| ==> values[i] <= top) && (top == 0 || top in values) && top >= 0
  }

  lemma TopsOneMore(values: seq<int>, top: int, v: int)
    requires Tops(values, top)
    ensures Tops(values + [v], Max(top, v))
  {
    var more := values + [v];
    assert forall i :: 0 <= i < |values| ==> more[i] == values[i];
    assert more[|values|] == v;
    if top in values {
      var i :| 0 <= i < |values| && values[i] == top;
      assert more[i] == top;
    }
  }

  function Cpus(s: seq<PlannedInstance>): (r: seq<int>)
    ensures |r| == |s| && forall i :: 0 <= i < |s| ==> r[i] == s[i].machine.vcpus
  {
    if s == [] then [] else Cpus(s[..|s| - 1]) + [s[|s| - 1].machine.vcpus]
  }

  function Memories(s: seq<PlannedInstance>): (r: seq<int>)
    ensures |r| == |s| && forall i :: 0 <= i < |s| ==> r[i] == s[i].machine.memoryMB
  {
    if s == [] then [] else Memories(s[..|s| - 1]) + [s[|s| - 1].machine.memoryMB]
  }

  function Sizes(s: seq<PlannedDisk>): (r: seq<int>)
    ensures |r| == |s| && forall i :: 0 <= i < |s| ==> r[i] == s[i].sizeGiB
  {
    if s == [] then [] else Sizes(s[..|s| - 1]) + [s[|s| - 1].sizeGiB]
  }

  /** Checks the planned machines and finds the largest of each dimension. */
  method CheckInstances(c: CapacityInput, runID: string) returns (ok: bool, keys: set<string>, machine: MachineShape)
    ensures ok <==> (forall i :: i in c.instances ==> InstanceOk(i, runID)) && DistinctBy(InstanceKey, c.instances)
    ensures ok ==> forall k :: k in keys <==> exists i :: i in c.instances && InstanceKey(i) == k
    ensures ok ==> Tops(Cpus(c.instances), machine.vcpus) && Tops(Memories(c.instances), machine.memoryMB)
  {
    hide InstanceOk, Tops, Cpus, Memories;
    keys := {};
    machine := MachineShape(0, 0);
    TopsEmpty();
    var done: seq<PlannedInstance> := [];
    assert Cpus([]) == [] && Memories([]) == [];
    for n := 0 to |c.instances|
      invariant done == c.instances[..n]
      invariant forall i :: i in done ==> InstanceOk(i, runID)
      invariant DistinctBy(InstanceKey, done)
      invariant forall k :: k in keys <==> exists i :: i in done && InstanceKey(i) == k
      invariant Tops(Cpus(done), machine.vcpus) && Tops(Memories(done), machine.memoryMB)
    {
      var instance := c.instances[n];
      assert instance in c.instances;
      if !InstanceOk(instance, runID) {
        return false, {}, machine;
      }
      RepeatedKey(InstanceKey, c.instances, n);
      if instance.identity.canonicalKey in keys {
        return false, {}, machine;
      }
      TopsOneMore(Cpus(done), machine.vcpus, instance.machine.vcpus);
      TopsOneMore(Memories(done), machine.memoryMB, instance.machine.memoryMB);
      MachinesOneMore(done, instance);
      keys := keys + {instance.identity.canonicalKey};
      machine := MachineShape(Max(machine.vcpus, instance.machine.vcpus), Max(machine.memoryMB, instance.machine.memoryMB));
      done := done + [instance];
    }
    assert done == c.instances;
    return true, keys, machine;
  }

  lemma TopsEmpty()
    ensures Tops([], 0)
  {
  }

  lemma MachinesOneMore(done: seq<PlannedInstance>, i: PlannedInstance)
    ensures Cpus(done + [i]) == Cpus(done) + [i.machine.vcpus]
    ensures Memories(done + [i]) == Memories(done) + [i.machine.memoryMB]
  {
  }

  /** A key seen before spoils the list; a new one extends the good prefix. */
  lemma RepeatedKey<T(!new)>(key: T -> string, s: seq<T>, n: nat)
    requires n < |s| && DistinctBy(key, s[..n])
    ensures (exists x :: x in s[..n] && key(x) == key(s[n])) ==> !DistinctBy(key, s)
    ensures (forall x :: x in s[..n] ==> key(x) != key(s[n])) ==> DistinctBy(key, s[..n] + [s[n]])
  {
    if x :| x in s[..n] && key(x) == key(s[n]) {
      var k :| 0 <= k < n && s[..n][k] == x;
      assert s[k] == x;
    }
  }

  /** Checks the planned disks and finds the largest. */
  method CheckDisks(c: CapacityInput, runID: string) returns (ok: bool, keys: set<string>, largest: int)
    ensures ok <==> (forall d :: d in c.disks ==> DiskOk(d, runID)) && DistinctBy(DiskKey, c.disks)
    ensures ok ==> forall k :: k in keys <==> exists d :: d in c.disks && DiskKey(d) == k
    ensures ok ==> Tops(Sizes(c.disks), largest)
  {
    hide DiskOk, Tops, Sizes;
    keys := {};
    largest := 0;
    TopsEmpty();
    var done: seq<PlannedDisk> := [];
    assert Sizes([]) == [];
    for n := 0 to |c.disks|
      invariant done == c.disks[..n]
      invariant forall d :: d in done ==> DiskOk(d, runID)
      invariant DistinctBy(DiskKey, done)
      invariant forall k :: k in keys <==> exists d :: d in done && DiskKey(d) == k
      invariant Tops(Sizes(done), largest)
    {
      var disk := c.disks[n];
      assert disk in c.disks;
      if !DiskOk(disk, runID) {
        return false, {}, 0;
      }
      RepeatedKey(DiskKey, c.disks, n);
      if disk.identity.canonicalKey in keys {
        return false, {}, 0;
      }
      TopsOneMore(Sizes(done), largest, disk.sizeGiB);
      SizesOneMore(done, disk);
      keys := keys + {disk.identity.canonicalKey};
      largest := Max(largest, disk.sizeGiB);
      done := done + [disk];
    }
    assert done == c.disks;
    return true, keys, largest;
  }

  lemma SizesOneMore(done: seq<PlannedDisk>, d: PlannedDisk)
    ensures Sizes(done + [d]) == Sizes(done) + [d.sizeGiB]
  {
  }

  /** Accepts exactly a complete, undisturbed plan that fits every cap. */
  method ValidateCapacityProof(g: Grammar, c: CapacityInput, l: RunLimits, runID: string, targets: seq<Target>)
    returns (ok: bool)
    ensures ok <==> CapacityProved(g, c, l, runID, targets)
  {
    hide InstanceOk, DiskOk, Tops, SnapshotOf, TargetPlanned, PlanOk, ValidateRunRequest, WithinCaps;
    if !PlanOk(c.plan) {
      return false;
    }
    if |c.instances| == 0 || c.lifetime <= 0 || c.costMicros < 0 {
      return false;
    }
    if c.snapshot != SnapshotOf(c) {
      return false;
    }
    if !g.patterns.runID(runID) {
      return false;
    }
    var instancesOk, instanceKeys, machine := CheckInstances(c, runID);
    if !instancesOk {
      return false;
    }
    var disksOk, diskKeys, largest := CheckDisks(c, runID);
    if !disksOk {
      return false;
    }
    var targetsOk := CheckTargets(c, targets, instanceKeys, diskKeys);
    if !targetsOk {
      return false;
    }
    MaximaDecide(c, l, runID, machine, largest);
    return ValidateRunRequest(l, RunRequest(machine, largest, |c.instances|, c.lifetime, c.costMicros));
  }

  method CheckTargets(c: CapacityInput, targets: seq<Target>, instanceKeys: set<string>, diskKeys: set<string>)
    returns (ok: bool)
    requires forall k :: k in instanceKeys <==> exists i :: i in c.instances && InstanceKey(i) == k
    requires forall k :: k in diskKeys <==> exists d :: d in c.disks && DiskKey(d) == k
    ensures ok <==> forall t :: t in targets ==> TargetPlanned(c, t)
  {
    for n := 0 to |targets|
      invariant forall k :: 0 <= k < n ==> TargetPlanned(c, targets[k])
    {
      var t := targets[n];
      assert t in targets;
      if t.identity.service == COMPUTE && t.identity.kind == INSTANCES {
        if t.identity.canonicalKey !in instanceKeys {
          return false;
        }
      } else if t.identity.service == COMPUTE && t.identity.kind == DISKS {
        if t.identity.canonicalKey !in diskKeys {
          return false;
        }
      }
    }
    return true;
  }

  /** Capping the maxima is capping every planned item. */
  lemma MaximaDecide(c: CapacityInput, l: RunLimits, runID: string, machine: MachineShape, largest: int)
    requires Tops(Cpus(c.instances), machine.vcpus) && Tops(Memories(c.instances), machine.memoryMB)
    requires Tops(Sizes(c.disks), largest) && c.instances != [] && c.lifetime > 0 && c.costMicros >= 0
    requires forall i :: i in c.instances ==> InstanceOk(i, runID)
    ensures ValidateRunRequest(l, RunRequest(machine, largest, |c.instances|, c.lifetime, c.costMicros)) <==>
            LimitsOk(l) && WithinCaps(c, l)
  {
    hide ValidIdentity, RunScoped;
    assert c.instances[0] in c.instances;
    assert Cpus(c.instances)[0] > 0 && Memories(c.instances)[0] > 0;
    MachineCaps(c, machine, l);
    if largest <= l.maxDiskGiB {
      forall d | d in c.disks ensures d.sizeGiB <= l.maxDiskGiB {
        var k :| 0 <= k < |c.disks| && c.disks[k] == d;
        assert Sizes(c.disks)[k] == d.sizeGiB;
      }
    } else if largest != 0 {
      var k :| 0 <= k < |c.disks| && Sizes(c.disks)[k] == largest;
      assert c.disks[k] in c.disks;
    }
  }

  lemma MachineCaps(c: CapacityInput, machine: MachineShape, l: RunLimits)
    requires Tops(Cpus(c.instances), machine.vcpus) && Tops(Memories(c.instances), machine.memoryMB)
    ensures machine.vcpus > 0 ==> (machine.vcpus <= l.maxMachine.vcpus <==>
              forall i :: i in c.instances ==> i.machine.vcpus <= l.maxMachine.vcpus)
    ensures machine.memoryMB > 0 ==> (machine.memoryMB <= l.maxMachine.memoryMB <==>
              forall i :: i in c.instances ==> i.machine.memoryMB <= l.maxMachine.memoryMB)
  {
    forall i | i in c.instances ensures i.machine.vcpus <= machine.vcpus && i.machine.memoryMB <= machine.memoryMB {
      var k :| 0 <= k < |c.instances| && c.instances[k] == i;
      assert Cpus(c.instances)[k] == i.machine.vcpus && Memories(c.instances)[k] == i.machine.memoryMB;
    }
    if machine.vcpus > 0 {
      var k :| 0 <= k < |c.instances| && Cpus(c.instances)[k] == machine.vcpus;
      assert c.instances[k] in c.instances;
    }
    if machine.memoryMB > 0 {
      var k :| 0 <= k < |c.instances| && Memories(c.instances)[k] == machine.memoryMB;
      assert c.instances[k] in c.instances;
    }
  }

  /** The capacity proof and its digest do not depend on the order of the plan. */
  lemma CapacityReordered(g: Grammar, a: CapacityInput, b: CapacityInput, l: RunLimits, runID: string,
                          targetsA: seq<Target>, targetsB: seq<Target>)
    requires CapacityProved(g, a, l, runID, targetsA)
    requires multiset(a.instances) == multiset(b.instances) && multiset(a.disks) == multiset(b.disks)
    requires multiset(targetsA) == multiset(targetsB)
    requires a.plan == b.plan && a.snapshot == b.snapshot && a.lifetime == b.lifetime && a.costMicros == b.costMicros
    ensures CapacityProved(g, b, l, runID, targetsB) && SnapshotOf(a) == SnapshotOf(b)
  {
    hide InstanceOk, DiskOk, LexLess, SortBy, PlanOk, LimitsOk;
    ReorderKeepsElements(a.instances, b.instances);
    ReorderKeepsElements(a.disks, b.disks);
    ReorderKeepsElements(targetsA, targetsB);
    DistinctByReordered(InstanceKey, a.instances, b.instances);
    DistinctByReordered(DiskKey, a.disks, b.disks);
    DistinctByIsDistinct(InstanceKey, a.instances);
    DistinctByIsDistinct(DiskKey, a.disks);
    LexKeyOrders(InstanceLess, InstanceKey, a.instances);
    LexKeyOrders(DiskLess, DiskKey, a.disks);
    SortCanonical(InstanceLess, a.instances, b.instances);
    SortCanonical(DiskLess, a.disks, b.disks);
  }
}
