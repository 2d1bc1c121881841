/** The generation-preconditioned object store and the lock round trip over it. */
module ControlStore {
  import opened Common
  import opened AuditProvider

  datatype Write = Write(name: string, generation: nat, content: Bytes, own: bool)

  datatype StoreError = InvalidRequest | NotFound | PreconditionFailed
  datatype StoreResult<+T> = Ok(value: T) | Err(error: StoreError)

  function Described(w: Write): StoredObject {
    StoredObject(Descriptor(w.generation, |w.content|, Crc32c(w.content)), w.content)
  }

  /** What a history of writes leaves stored. */
  function Contents(history: seq<Write>): map<string, StoredObject> {
    if history == [] then map[]
    else
      var w := history[|history| - 1];
      Contents(history[..|history| - 1])[w.name := Described(w)]
  }

  /** The generation a global counter gives write number `i`; it wraps at 64 bits. */
  function GenerationAt(i: nat): nat {
    (i + 1) % TWO_TO_64
  }

  ghost predicate Numbered(history: seq<Write>) {
    forall i :: 0 <= i < |history| ==> history[i].generation == GenerationAt(i)
  }

  class MemoryObjects {
    var generation: uint64
    var objects: map<string, StoredObject>
    ghost var history: seq<Write>

    constructor ()
      ensures Valid() && history == []
    {
      generation, objects, history := 0, map[], [];
    }

    ghost predicate Valid()
      reads this
    {
      generation == |history| % TWO_TO_64 && Numbered(history) && objects == Contents(history)
    }

    method Put(name: string, content: Bytes, ghost own: bool) returns (descriptor: Descriptor)
      requires Valid()
      modifies this
      ensures Valid()
      ensures history == old(history) + [Write(name, GenerationAt(|old(history)|), content, own)]
      ensures objects == old(objects)[name := StoredObject(descriptor, content)]
      ensures descriptor == Described(history[|old(history)|]).descriptor
    {
      generation := (generation + 1) % TWO_TO_64;
      descriptor := Descriptor(generation, |content|, Crc32c(content));
      objects := objects[name := StoredObject(descriptor, content)];
      ghost var before := history;
      history := history + [Write(name, generation, content, own)];
      assert history[..|history| - 1] == before;
    }

    method Create(name: string, content: Bytes, ghost own: bool) returns (r: StoreResult<Descriptor>)
      requires Valid()
      modifies this
      ensures Valid() && old(history) <= history
      ensures r.Ok? <==> name != "" && name !in old(objects)
      ensures r.Ok? ==> history == old(history) + [Write(name, GenerationAt(|old(history)|), content, own)]
      ensures r.Ok? ==> r.value == Described(history[|old(history)|]).descriptor
      ensures r.Err? ==> history == old(history) &&
                         r.error == if name == "" then InvalidRequest else PreconditionFailed
    {
      if name == "" {
        return Err(InvalidRequest);
      }
      if name in objects {
        return Err(PreconditionFailed);
      }
      var descriptor := Put(name, content, own);
      return Ok(descriptor);
    }

    method Read(name: string) returns (r: StoreResult<StoredObject>)
      ensures r.Ok? <==> name != "" && name in objects
      ensures r.Ok? ==> r.value == objects[name]
      ensures r.Err? ==> r.error == if name == "" then InvalidRequest else NotFound
    {
      if name == "" {
        return Err(InvalidRequest);
      }
      if name !in objects {
        return Err(NotFound);
      }
      return Ok(objects[name]);
    }

    method CompareAndSwap(name: string, expected: nat, content: Bytes, ghost own: bool)
      returns (r: StoreResult<Descriptor>)
      requires Valid()
      modifies this
      ensures Valid() && old(history) <= history
      ensures r.Ok? <==> name != "" && expected != 0 && name in old(objects) &&
                         old(objects)[name].descriptor.generation == expected
      ensures r.Ok? ==> history == old(history) + [Write(name, GenerationAt(|old(history)|), content, own)]
      ensures r.Ok? ==> r.value == Described(history[|old(history)|]).descriptor
      ensures r.Err? ==> history == old(history) &&
                         r.error == if name == "" || expected == 0 then InvalidRequest
                                    else if name !in old(objects) then NotFound else PreconditionFailed
    {
      if name == "" || expected == 0 {
        return Err(InvalidRequest);
      }
      if name !in objects {
        return Err(NotFound);
      }
      if objects[name].descriptor.generation != expected {
        return Err(PreconditionFailed);
      }
      var descriptor := Put(name, content, own);
      return Ok(descriptor);
    }
  }

  // ----- Generations -----

  /** After 2^64 - 1 writes the counter reaches the value that means "must not exist", and then starts over. */
  lemma CounterWraps()
    ensures GenerationAt(TWO_TO_64 - 1) == 0
    ensures GenerationAt(TWO_TO_64) == GenerationAt(0)
  {
  }

  /** No two writes share a generation and none has the generation zero. */
  ghost predicate GenerationsFresh(history: seq<Write>) {
    && (forall i :: 0 <= i < |history| ==> history[i].generation != 0)
    && forall i, j :: 0 <= i < |history| && 0 <= j < |history| && history[i].generation == history[j].generation ==> i == j
  }

  /** Generations are never reused, and never zero, exactly short of the wrap. */
  lemma GenerationsNeverReused(history: seq<Write>)
    requires Numbered(history)
    ensures GenerationsFresh(history) <==> |history| < TWO_TO_64
  {
    if |history| < TWO_TO_64 {
      forall i, j | 0 <= i < |history| && 0 <= j < |history| && history[i].generation == history[j].generation
        ensures i == j && history[i].generation != 0
      {
        assert history[i].generation == GenerationAt(i) && history[j].generation == GenerationAt(j);
      }
    } else {
      CounterWraps();
      assert history[TWO_TO_64 - 1].generation == GenerationAt(TWO_TO_64 - 1) == 0;
    }
  }

  /** Position of the last write to `name`. */
  function LastWrite(history: seq<Write>, name: string): (r: Option<nat>)
    ensures r.Some? ==> r.value < |history| && history[r.value].name == name
    ensures r.Some? ==> forall i :: r.value < i < |history| ==> history[i].name != name
    ensures r.None? ==> forall i :: 0 <= i < |history| ==> history[i].name != name
  {
    if history == [] then None
    else if history[|history| - 1].name == name then Some(|history| - 1)
    else LastWrite(history[..|history| - 1], name)
  }

  /** What is stored under a name is its last write. */
  lemma {:induction false} StoredIsLast(history: seq<Write>, name: string)
    ensures name in Contents(history) <==> LastWrite(history, name).Some?
    ensures name in Contents(history) ==> Contents(history)[name] == Described(history[LastWrite(history, name).value])
  {
    if history != [] {
      StoredIsLast(history[..|history| - 1], name);
    }
  }

  /** Content stored at one (name, generation) never changes, whoever writes in between. */
  lemma GenerationPinsContent(early: seq<Write>, late: seq<Write>, name: string)
    requires Numbered(late) && |late| < TWO_TO_64 && early <= late
    requires name in Contents(early) && name in Contents(late)
    requires Contents(early)[name].descriptor.generation == Contents(late)[name].descriptor.generation
    ensures Contents(early)[name] == Contents(late)[name]
    ensures forall i :: |early| <= i < |late| ==> late[i].name != name
  {
    StoredIsLast(early, name);
    StoredIsLast(late, name);
    var i, j := LastWrite(early, name).value, LastWrite(late, name).value;
    assert late[i] == early[i];
    GenerationsNeverReused(late);
  }

  // ----- The lock round trip -----

  datatype Holder = Holder(account: string, hostname: string, pid: int)

  datatype LockRecord = LockRecord(
    schema: string, environment: string, state: string, holder: Option<Holder>,
    acquiredAt: Option<int>, heartbeatAt: Option<int>, leaseUntil: Option<int>,
    operationID: string, planID: string, workflowID: string, cliVersion: string, readers: seq<string>)

  const LOCK_SCHEMA := "ctrldb.ctrlboard.dev/lock/v1"
  const LOCK_LEASE_SECONDS: int := 300

  /** One write another client attempts: create-only where `expected` is zero. */
  datatype Attempt = Attempt(name: string, expected: nat, content: Bytes)

  datatype LockOutcome = LockOutcome(mutationOccurred: bool, acquired: nat, released: nat, verified: bool)

  /** The lock operation's fixed inputs; `decode` and `encode` stand for the JSON codec. */
  datatype LockPlan = LockPlan(
    environment: string, account: string, holder: Holder, operationID: string, planID: string, workflowID: string,
    cliVersion: string, decode: Bytes -> Option<LockRecord>, encode: LockRecord -> Bytes)
  {
    function Name(): string { "locks/" + environment + ".json" }

    predicate HolderOk() {
      holder.account == account && holder.hostname != "" && holder.pid > 0
    }

    predicate CleanlyReleased(content: Bytes) {
      && decode(content).Some?
      && var r := decode(content).value;
         r.schema == LOCK_SCHEMA && r.environment == environment && r.state == "released" &&
         r.holder.None? && r.acquiredAt.None? && r.heartbeatAt.None? && r.leaseUntil.None? &&
         r.operationID == "" && r.planID == "" && r.workflowID == ""
    }

    function Held(content: Bytes, now: int): Bytes
      requires CleanlyReleased(content)
    {
      encode(decode(content).value.(
        workflowID := workflowID, operationID := operationID, planID := planID, holder := Some(holder),
        acquiredAt := Some(now), heartbeatAt := Some(now), leaseUntil := Some(now + LOCK_LEASE_SECONDS),
        state := "held", cliVersion := cliVersion, readers := []))
    }
  }

  /** The writes to `name`, in order. */
  function WritesTo(history: seq<Write>, name: string): seq<Write> {
    if history == [] then []
    else
      var w := history[|history| - 1];
      WritesTo(history[..|history| - 1], name) + if w.name == name then [w] else []
  }

  lemma {:induction false} WritesToConcat(a: seq<Write>, b: seq<Write>, name: string)
    ensures WritesTo(a + b, name) == WritesTo(a, name) + WritesTo(b, name)
  {
    if b == [] {
      assert a + b == a;
    } else {
      WritesToConcat(a, b[..|b| - 1], name);
      assert (a + b)[..|a + b| - 1] == a + b[..|b| - 1];
    }
  }

  lemma {:induction false} NoWrites(h: seq<Write>, name: string)
    requires forall i :: 0 <= i < |h| ==> h[i].name != name
    ensures WritesTo(h, name) == []
  {
    if h != [] {
      NoWrites(h[..|h| - 1], name);
    }
  }

  lemma OneWrite(w: Write)
    ensures WritesTo([w], w.name) == [w]
  {
    assert [w][..0] == [];
  }

  /** Between two sightings of the same generation nobody wrote the name. */
  lemma QuietBetween(h: seq<Write>, from: nat, to: nat, name: string)
    requires Numbered(h) && |h| < TWO_TO_64 && from <= to <= |h|
    requires name in Contents(h[..from]) && name in Contents(h[..to])
    requires Contents(h[..from])[name].descriptor.generation == Contents(h[..to])[name].descriptor.generation
    ensures WritesTo(h[from..to], name) == []
  {
    GenerationPinsContent(h[..from], h[..to], name);
    forall i | 0 <= i < |h[from..to]| ensures h[from..to][i].name != name {
      assert h[from..to][i] == h[..to][from + i];
    }
    NoWrites(h[from..to], name);
  }

  /** No attempt is made on the name. */
  ghost predicate Spares(attempts: seq<Attempt>, name: string) {
    forall i :: 0 <= i < |attempts| ==> attempts[i].name != name
  }

  /** The name is stored, or not, as before. */
  ghost predicate SameUnder(before: map<string, StoredObject>, after: map<string, StoredObject>, name: string) {
    (name in before <==> name in after) && (name in before ==> before[name] == after[name])
  }

  lemma OtherWriteSpares(before: seq<Write>, w: Write, name: string)
    requires w.name != name
    ensures SameUnder(Contents(before), Contents(before + [w]), name)
  {
    assert (before + [w])[..|before|] == before;
  }

  /** Whatever the other clients attempt between two of our calls. */
  method OtherClients(store: MemoryObjects, attempts: seq<Attempt>, ghost name: string)
    requires store.Valid()
    modifies store
    ensures store.Valid() && old(store.history) <= store.history
    ensures forall i :: |old(store.history)| <= i < |store.history| ==> !store.history[i].own
    ensures Spares(attempts, name) ==> SameUnder(old(store.objects), store.objects, name)
  {
    hide Contents, Numbered, Crc32c, GenerationAt, Described;
    ghost var start := |store.history|;
    for i := 0 to |attempts|
      invariant store.Valid() && old(store.history) <= store.history
      invariant forall i :: start <= i < |store.history| ==> !store.history[i].own
      invariant Spares(attempts, name) ==> SameUnder(old(store.objects), store.objects, name)
    {
      var a := attempts[i];
      ghost var before := store.history;
      if a.expected == 0 {
        var _ := store.Create(a.name, a.content, false);
      } else {
        var _ := store.CompareAndSwap(a.name, a.expected, a.content, false);
      }
      if store.history != before && a.name != name {
        OtherWriteSpares(before, store.history[|before|], name);
      }
    }
  }

  /** Short of the wrap a stored object's generation is real, and older than the next one. */
  lemma StoredGenerationIsOlder(h: seq<Write>, name: string)
    requires Numbered(h) && |h| + 1 < TWO_TO_64 && name in Contents(h)
    ensures Contents(h)[name].descriptor.generation != 0
    ensures Contents(h)[name].descriptor.generation != GenerationAt(|h|)
  {
    hide Contents, Crc32c, GenerationAt;
    StoredIsLast(h, name);
    var k := LastWrite(h, name).value;
    assert h[k].generation == GenerationAt(k);
    CountsUp(k);
    CountsUp(|h|);
  }

  lemma CountsUp(i: nat)
    requires i + 1 < TWO_TO_64
    ensures GenerationAt(i) == i + 1
  {
  }

  lemma StoredAfterWrite(s: seq<Write>, w: Write)
    ensures w.name in Contents(s + [w]) && Contents(s + [w])[w.name] == Described(w)
  {
    assert (s + [w])[..|s|] == s;
  }

  /** One write with the name quiet before it and still in place at the end. */
  lemma OneWriteBetween(h: seq<Write>, from: nat, at: nat, to: nat, name: string)
    requires Numbered(h) && |h| < TWO_TO_64 && from <= at < to <= |h| && h[at].name == name
    requires name in Contents(h[..from]) && name in Contents(h[..at]) && name in Contents(h[..to])
    requires Contents(h[..from])[name].descriptor.generation == Contents(h[..at])[name].descriptor.generation
    requires Contents(h[..to])[name].descriptor.generation == h[at].generation
    ensures WritesTo(h[from..to], name) == [h[at]]
  {
    hide Contents, WritesTo, Numbered, Crc32c, GenerationAt;
    QuietBetween(h, from, at, name);
    assert h[..at + 1] == h[..at] + [h[at]];
    StoredAfterWrite(h[..at], h[at]);
    QuietBetween(h, at + 1, to, name);
    OneWrite(h[at]);
    WritesToConcat([h[at]], h[at + 1..to], name);
    WritesToConcat(h[from..at], [h[at]] + h[at + 1..to], name);
    assert h[from..to] == h[from..at] + ([h[at]] + h[at + 1..to]);
  }

  lemma TwoWritesBetween(h: seq<Write>, i0: nat, i1: nat, i3: nat, name: string)
    requires Numbered(h) && |h| < TWO_TO_64 && i0 <= i1 < i3 < |h| && h[i1].name == name && h[i3].name == name
    requires name in Contents(h[..i0]) && name in Contents(h[..i1]) && name in Contents(h[..i3]) && name in Contents(h)
    requires Contents(h[..i0])[name].descriptor.generation == Contents(h[..i1])[name].descriptor.generation
    requires Contents(h[..i3])[name].descriptor.generation == h[i1].generation
    requires Contents(h)[name].descriptor.generation == h[i3].generation
    ensures WritesTo(h[i0..], name) == [h[i1], h[i3]]
  {
    hide Contents, WritesTo, Numbered, Crc32c, GenerationAt;
    var mid := i1 + 1;
    assert h[..|h|] == h;
    assert h[..mid] == h[..i1] + [h[i1]];
    StoredAfterWrite(h[..i1], h[i1]);
    OneWriteBetween(h, i0, i1, mid, name);
    OneWriteBetween(h, mid, i3, |h|, name);
    WritesToConcat(h[i0..mid], h[mid..|h|], name);
    assert h[i0..] == h[i0..mid] + h[mid..|h|];
  }

  /** What was stored at an earlier moment, read off the later history. */
  lemma StoredThen(early: seq<Write>, late: seq<Write>)
    requires early <= late
    ensures Contents(late[..|early|]) == Contents(early)
  {
    assert late[..|early|] == early;
  }

  function Slot(others: seq<seq<Attempt>>, i: nat): seq<Attempt> {
    if i < |others| then others[i] else []
  }

  /** Takes the lock at the generation just read, and proves the stale generation is refused. */
  method Acquire(store: MemoryObjects, name: string, expected: nat, held: Bytes, others: seq<seq<Attempt>>)
    returns (generation: nat, ok: bool, ghost at: nat)
    requires store.Valid() && name != ""
    modifies store
    ensures store.Valid() && old(store.history) <= store.history
    ensures generation != 0 || ok ==>
              && |old(store.history)| <= at < |store.history|
              && store.history[at] == Write(name, generation, held, true)
              && name in Contents(store.history[..at])
              && Contents(store.history[..at])[name].descriptor.generation == expected
    // Undisturbed, it succeeds exactly when the expected generation is stored.
    ensures Spares(Slot(others, 1), name) && Spares(Slot(others, 2), name) && |store.history| + 1 < TWO_TO_64 ==>
              && (ok <==> name in old(store.objects) && old(store.objects)[name].descriptor.generation == expected)
              && (ok ==> name in store.objects && store.objects[name].descriptor.generation == generation)
  {
    hide Contents, Numbered, Crc32c, GenerationAt, WritesTo, Spares, Slot, Described;
    generation, ok, at := 0, false, 0;
    OtherClients(store, Slot(others, 1), name);
    ghost var before := store.history;
    ghost var met := store.objects;
    var acquired := store.CompareAndSwap(name, expected, held, true);
    if name in met && |before| + 1 < TWO_TO_64 {
      StoredGenerationIsOlder(before, name);
    }
    if acquired.Err? {
      return;
    }
    at := |before|;
    generation := acquired.value.generation;
    WrittenNow(before, store.history[at]);
    OtherClients(store, Slot(others, 2), name);
    var stale := store.CompareAndSwap(name, expected, held, true);
    StoredThen(before, store.history);
    ok := stale.Err? && stale.error.PreconditionFailed?;
  }

  lemma WrittenNow(before: seq<Write>, w: Write)
    ensures w.name in Contents(before + [w]) && Contents(before + [w])[w.name] == Described(w)
    ensures Described(w).descriptor.generation == w.generation && Described(w).content == w.content
  {
    StoredAfterWrite(before, w);
  }

  /** Puts the prior content back at the held generation, and reads it back. */
  method Release(store: MemoryObjects, name: string, acquired: nat, content: Bytes, others: seq<seq<Attempt>>)
    returns (generation: nat, ok: bool, ghost at: nat)
    requires store.Valid() && name != ""
    modifies store
    ensures store.Valid() && old(store.history) <= store.history
    ensures ok ==>
              && |old(store.history)| <= at < |store.history|
              && store.history[at] == Write(name, generation, content, true)
              && name in Contents(store.history[..at])
              && Contents(store.history[..at])[name].descriptor.generation == acquired
              && name in store.objects && store.objects[name].content == content
              && store.objects[name].descriptor.generation == generation
    // Undisturbed, it succeeds exactly when the held generation is stored.
    ensures Spares(Slot(others, 3), name) && Spares(Slot(others, 4), name) && |store.history| + 1 < TWO_TO_64 ==>
              (ok <==> name in old(store.objects) && old(store.objects)[name].descriptor.generation == acquired)
  {
    hide Contents, Numbered, Crc32c, GenerationAt, WritesTo, Spares, Slot, Described;
    generation, ok, at := 0, false, 0;
    OtherClients(store, Slot(others, 3), name);
    ghost var before := store.history;
    ghost var met := store.objects;
    var released := store.CompareAndSwap(name, acquired, content, true);
    if name in met && |before| + 1 < TWO_TO_64 {
      StoredGenerationIsOlder(before, name);
    }
    if released.Err? {
      return;
    }
    at := |before|;
    generation := released.value.generation;
    WrittenNow(before, store.history[at]);
    OtherClients(store, Slot(others, 4), name);
    StoredThen(before, store.history);
    var final := store.Read(name);
    ok := final.Ok? && final.value.descriptor == released.value && final.value.content == content;
  }

  /** Acquires and releases the lock once. `others[i]` runs before the i-th store
      call; `open1` and `open2` are the approval window's answers before the two
      writes. `first` is what the opening read saw, and `start` counts the
      writes before it. */
  method LockRoundTrip(store: MemoryObjects, plan: LockPlan, now: int, open1: bool, open2: bool,
                       others: seq<seq<Attempt>>)
    returns (outcome: LockOutcome, ghost start: nat, ghost first: Bytes)
    requires store.Valid()
    modifies store
    ensures store.Valid() && old(store.history) <= store.history
    ensures start <= |store.history|
    ensures outcome.verified && |store.history| < TWO_TO_64 ==>
              && plan.CleanlyReleased(first)
              && WritesTo(store.history[start..], plan.Name()) ==
                 [Write(plan.Name(), outcome.acquired, plan.Held(first, now), true),
                  Write(plan.Name(), outcome.released, first, true)]
              && plan.Name() in store.objects && store.objects[plan.Name()].content == first
    ensures !outcome.mutationOccurred ==>
              forall i :: |old(store.history)| <= i < |store.history| ==> !store.history[i].own
    ensures outcome.verified ==> outcome.mutationOccurred
    // With nobody else at the lock it succeeds exactly when it should.
    ensures (forall i :: Spares(Slot(others, i), plan.Name())) && |store.history| + 1 < TWO_TO_64 ==>
              (outcome.verified <==>
                 && plan.Name() in old(store.objects) && plan.CleanlyReleased(old(store.objects)[plan.Name()].content)
                 && plan.HolderOk() && open1 && open2)
  {
    hide Contents, WritesTo, Numbered, Crc32c, GenerationAt, Described, Spares, Slot;
    var name := plan.Name();
    outcome, first := LockOutcome(false, 0, 0, false), [];
    OtherClients(store, Slot(others, 0), name);
    ghost var s0 := store.history;
    start := |s0|;
    var current := store.Read(name);
    if current.Err? || !plan.CleanlyReleased(current.value.content) {
      return;
    }
    var content := current.value.content;
    first := content;
    if !plan.HolderOk() || !open1 {
      return;
    }
    outcome := outcome.(mutationOccurred := true);
    var held := plan.Held(content, now);
    var acquired, ok, i1 := Acquire(store, name, current.value.descriptor.generation, held, others);
    outcome := outcome.(acquired := acquired);
    if !ok || !open2 {
      return;
    }
    StoredThen(s0, store.history);
    ghost var s2 := store.history;
    var released, done, i3 := Release(store, name, acquired, content, others);
    if !done {
      return;
    }
    outcome := outcome.(released := released, verified := true);
    if |store.history| < TWO_TO_64 {
      assert s2[..i1] == store.history[..i1];
      assert s2[..|s0|] == store.history[..|s0|];
      TwoWritesBetween(store.history, |s0|, i1, i3, name);
    }
  }
}
