/** The audit handoff: Bootstrap (K1a) and LockRetention (K1b), resumable at
    every boundary between a provider call and its record. */
module Handoff {
  import opened Common
  import opened Text
  import opened AuditProvider
  import opened HandoffWorld

  // ----- Reading the record chain -----

  /** The directory holds some valid chain for the envelope. */
  ghost predicate Readable(e: Envelope, files: map<string, HandoffRecord>) {
    exists records :: ValidChain(e, records) && Holds(files, records)
  }

  /** Position `i` of a listing passes the reader's checks. */
  predicate Reads(e: Envelope, files: map<string, HandoffRecord>, names: seq<string>, records: seq<HandoffRecord>, i: nat)
    requires i < |names| && i < |records|
  {
    Chained(e, records, i) && FileName(records[i]) == names[i]
  }

  /** What a sorted listing of a readable directory finds at position `k`. */
  lemma ListingFinds(e: Envelope, files: map<string, HandoffRecord>, names: seq<string>, chain: seq<HandoffRecord>)
    requires StrictlySorted(names) && forall name :: name in names <==> name in files
    requires ValidChain(e, chain) && Holds(files, chain)
    ensures |names| == |chain|
    ensures forall k :: 0 <= k < |chain| ==> names[k] == FileName(chain[k]) && files[names[k]] == chain[k]
  {
    ListingIsTheChain(e, files, chain, names);
  }

  lemma ListingReads(e: Envelope, files: map<string, HandoffRecord>, names: seq<string>,
                     records: seq<HandoffRecord>, i: nat)
    requires StrictlySorted(names) && forall name :: name in names <==> name in files
    requires i < |records| <= |names| && Readable(e, files)
    requires forall k :: 0 <= k < |records| ==> records[k] == files[names[k]]
    ensures Reads(e, files, names, records, i)
  {
    var chain :| ValidChain(e, chain) && Holds(files, chain);
    ListingFinds(e, files, names, chain);
    assert records == chain[..|records|];
    assert Chained(e, chain, i);
  }

  lemma ReadsSurvive(e: Envelope, files: map<string, HandoffRecord>, names: seq<string>,
                     records: seq<HandoffRecord>, r: HandoffRecord)
    requires |records| < |names|
    requires forall k :: 0 <= k < |records| ==> Reads(e, files, names, records, k)
    ensures forall k :: 0 <= k < |records| ==> Reads(e, files, names, records + [r], k)
  {
    forall k | 0 <= k < |records| ensures Reads(e, files, names, records + [r], k) {
      assert Reads(e, files, names, records, k);
    }
  }

  lemma AllRead(e: Envelope, files: map<string, HandoffRecord>, names: seq<string>, records: seq<HandoffRecord>)
    requires |records| == |names| && forall name :: name in names <==> name in files
    requires forall k :: 0 <= k < |records| ==> records[k] == files[names[k]] && Reads(e, files, names, records, k)
    ensures ValidChain(e, records) && Holds(files, records)
  {
    forall k | 0 <= k < |records| ensures Chained(e, records, k) && FileName(records[k]) == names[k] {
      assert Reads(e, files, names, records, k);
    }
  }

  /** Accepts exactly the directories that hold a valid chain, and returns that chain. */
  method ReadHandoffRecords(world: World, e: Envelope) returns (ok: bool, records: seq<HandoffRecord>)
    ensures ok <==> Readable(e, world.files)
    ensures ok ==> ValidChain(e, records) && Holds(world.files, records)
  {
    hide FileName, Chained;
    var names := world.ListNames();
    ghost var files := world.files;
    records := [];
    for i := 0 to |names|
      invariant |records| == i
      invariant forall k :: 0 <= k < i ==> records[k] == files[names[k]]
      invariant forall k :: 0 <= k < i ==> Reads(e, files, names, records, k)
    {
      assert names[i] in names;
      var record := world.files[names[i]];
      ghost var before := records;
      records := records + [record];
      if Readable(e, files) {
        ListingReads(e, files, names, records, i);
      }
      ReadsSurvive(e, files, names, before, record);
      if !Chained(e, records, i) || names[i] != FileName(record) {
        return false, [];
      }
    }
    AllRead(e, files, names, records);
    return true, records;
  }

  /** One directory holds at most one chain. */
  lemma HeldChainUnique(e: Envelope, files: map<string, HandoffRecord>, a: seq<HandoffRecord>, b: seq<HandoffRecord>)
    requires ValidChain(e, a) && ValidChain(e, b) && Holds(files, a) && Holds(files, b)
    ensures a == b
  {
    NamesSort(e, a);
    assert forall name :: name in NamesOf(a) <==> name in files by {
      forall name ensures name in NamesOf(a) <==> name in files {
        if name in files {
          var i :| 0 <= i < |a| && FileName(a[i]) == name;
          assert NamesOf(a)[i] == name;
        }
      }
    }
    ListingIsTheChain(e, files, b, NamesOf(a));
    assert |NamesOf(a)| == |a| && |NamesOf(b)| == |b|;
    forall i | 0 <= i < |a| ensures a[i] == b[i] {
      assert NamesOf(a)[i] == FileName(a[i]);
      assert NamesOf(b)[i] == FileName(b[i]);
    }
  }

  // ----- What an observed bucket must look like -----

  predicate CommonState(e: Envelope, s: BucketState) {
    && s.identity == e.bucket
    && s.uniformAccess && s.publicAccessPrevention == "enforced" && s.storageClass == "STANDARD"
    && s.versioning && !s.deleteRule
    && (s.archiveAfterDay == 0 || s.archiveAfterDay == AUDIT_ARCHIVE_AFTER_DAYS)
  }

  predicate PreLockState(e: Envelope, s: BucketState) {
    && CommonState(e, s) && !s.retentionLocked
    && (s.retentionSeconds == 0 || s.retentionSeconds == AUDIT_RETENTION_SECONDS)
  }

  function RecordedAs(records: seq<HandoffRecord>, phase: Phase): (r: Option<HandoffRecord>)
    ensures r.Some? <==> Reached(records, phase)
    ensures r.Some? ==> r.value in records && r.value.phase == phase
  {
    if records == [] then None
    else if records[0].phase == phase then Some(records[0])
    else
      assert forall i :: 0 <= i < |records[1..]| ==> records[1..][i] == records[i + 1];
      RecordedAs(records[1..], phase)
  }

  lemma LastOrder(e: Envelope, base: nat, chain: seq<HandoffRecord>)
    requires Expected(e, base, chain) && chain != []
    ensures Order(chain[|chain| - 1].phase) == |chain| - 1
  {
    assert NextExpected(e, base, |chain| - 1, chain[|chain| - 1]);
  }

  lemma LastReached(records: seq<HandoffRecord>)
    requires records != []
    ensures Reached(records, records[|records| - 1].phase)
  {
  }

  lemma ReachedGrows(before: seq<HandoffRecord>, after: seq<HandoffRecord>, phase: Phase)
    requires before <= after && Reached(before, phase)
    ensures Reached(after, phase)
  {
    var i :| 0 <= i < |before| && before[i].phase == phase;
    assert after[i] == before[i];
  }

  lemma RecordedAsExpected(e: Envelope, base: nat, chain: seq<HandoffRecord>, phase: Phase)
    requires Expected(e, base, chain) && Order(phase) < |chain|
    ensures RecordedAs(chain, phase) == Some(chain[Order(phase)])
  {
    ExpectedReached(e, base, chain, phase);
    var r := RecordedAs(chain, phase).value;
    var i :| 0 <= i < |chain| && chain[i] == r;
    assert NextExpected(e, base, i, chain[i]);
  }

  lemma EvidenceGrows(e: Envelope, before: seq<Event>, after: seq<Event>)
    requires Grew(before, after)
    ensures SawRecordedEnvelope(e, before) ==> SawRecordedEnvelope(e, after)
    ensures SawRecordedJournal(e, before) ==> SawRecordedJournal(e, after)
    ensures forall s :: Observed(before, SawBucket(s)) ==> Observed(after, SawBucket(s))
    ensures forall p :: RecordedPhase(before, p) ==> RecordedPhase(after, p)
  {
    hide Observed, Grew;
    RecordedStays(before, after);
    forall x | Observed(before, x) ensures Observed(after, x) {
      ObservedStays(before, after, x);
    }
    if SawRecordedEnvelope(e, before) {
      var r, o :| Recorded(r) in before && Observed(before, SawObject(e.EnvelopeName(), o)) &&
        r.envelope == Some(o.descriptor) && o.content == e.envelopeJSON;
      assert Recorded(r) in after && Observed(after, SawObject(e.EnvelopeName(), o));
    }
    if SawRecordedJournal(e, before) {
      var r, o :| Recorded(r) in before && Observed(before, SawObject(e.JournalName(), o)) &&
        r.journal == Some(o.descriptor) && o.content == e.journalJSON;
      assert Recorded(r) in after && Observed(after, SawObject(e.JournalName(), o));
    }
    forall p | RecordedPhase(before, p) ensures RecordedPhase(after, p) {
      var r :| Recorded(r) in before && r.phase == p;
      assert Recorded(r) in after;
    }
  }

  lemma RecordedStays(before: seq<Event>, after: seq<Event>)
    requires Grew(before, after)
    ensures forall r :: Recorded(r) in before ==> Recorded(r) in after
  {
    forall r | Recorded(r) in before ensures Recorded(r) in after {
      var i :| 0 <= i < |before| && before[i] == Recorded(r);
      assert after[i] == Recorded(r);
    }
  }

  lemma RetentionEvidenceGrows(before: seq<Event>, after: seq<Event>, metageneration: int)
    requires Grew(before, after) && SawRetention(before, metageneration)
    ensures SawRetention(after, metageneration)
  {
    hide Observed, Grew;
    var s :| Observed(before, SawBucket(s)) && s.metageneration == metageneration &&
      s.retentionSeconds == AUDIT_RETENTION_SECONDS && !s.retentionLocked;
    ObservedStays(before, after, SawBucket(s));
  }

  function AtLeast(n: nat, m: nat): nat {
    if n < m then m else n
  }

  lemma LockComesSixth(e: Envelope)
    ensures Canonical(e)[5] == LockRetention(3)
    ensures Canonical(e)[..6] == Canonical(e)
  {
  }

  predicate ExpectedNext(e: Envelope, base: nat, n: nat, phase: Phase, envelope: Option<Descriptor>,
                         journal: Option<Descriptor>) {
    && Order(phase) == n
    && envelope == (if n == 3 then Some(EnvelopeObject(e, base).descriptor) else None)
    && journal == (if n == 4 then Some(JournalObject(e, base).descriptor) else None)
  }

  // ----- One run of the engine -----

  class Session {
    const world: World
    const e: Envelope
    var records: seq<HandoffRecord>

    constructor (world: World, e: Envelope, records: seq<HandoffRecord>)
      ensures this.world == world && this.e == e && this.records == records
    {
      this.world, this.e, this.records := world, e, records;
    }

    /** The session still agrees with what is durable. */
    ghost predicate Ready()
      reads this, world
    {
      world.Valid() && world.envelope == Some(e) && records == world.chain && Reached(records, EnvelopeSealed)
    }

    /** Samples the clock at the last moment before a provider write. */
    method AuthorizeMutation() returns (ok: bool)
      modifies world`now, world`ticks
      ensures old(world.Steady(e)) ==> world.Steady(e) && (records == world.chain ==> ok)
    {
      var now := world.Now();
      if |records| > 0 && now < records[|records| - 1].recordedAt {
        return false;
      }
      return e.ValidAt(now);
    }

    /** The next record of the chain, unless it would not advance the phase or the clock. */
    method NextRecord(phase: Phase, envelope: Option<Descriptor>, journal: Option<Descriptor>)
      returns (ok: bool, record: HandoffRecord)
      requires records == world.chain
      requires phase.EnvelopeUploaded? <==> envelope.Some?
      requires phase.JournalUploaded? <==> journal.Some?
      requires envelope.Some? ==> envelope.value.generation != 0
      requires journal.Some? ==> journal.value.generation != 0
      modifies world`now, world`ticks
      ensures ok ==> Chained(e, records + [record], |records|) && record.recordedAt == world.now
      ensures record.phase == phase && record.envelope == envelope && record.journal == journal
      ensures old(world.Steady(e)) ==> world.Steady(e)
      ensures old(world.Steady(e)) && Expected(e, world.base, records) && Order(phase) == |records| ==> ok
    {
      hide NextExpected, FileName;
      var now := world.Now();
      record := HandoffRecord(e.operationID, e.hash, |records| + 1, phase, now, e.bucket, envelope, journal);
      if Expected(e, world.base, records) && records != [] {
        LastOrder(e, world.base, records);
      }
      if |records| > 0 && Order(phase) <= Order(records[|records| - 1].phase) {
        return false, record;
      }
      ok := now != 0 && (|records| == 0 || now >= records[|records| - 1].recordedAt);
    }

    /** Publishes the next phase record; a session that fails here is finished. */
    method Append(phase: Phase, envelope: Option<Descriptor>, journal: Option<Descriptor>) returns (ok: bool)
      requires world.Valid() && world.envelope == Some(e) && records == world.chain
      requires phase.EnvelopeUploaded? <==> envelope.Some?
      requires phase.JournalUploaded? <==> journal.Some?
      requires envelope.Some? ==> envelope.value.generation != 0
      requires journal.Some? ==> journal.value.generation != 0
      requires phase.RetentionLocked? ==> SawLocked(world.log)
      modifies world, this
      ensures world.Valid() && world.envelope == old(world.envelope) && Grew(old(world.log), world.log)
      ensures ok ==> records == world.chain && |records| == |old(records)| + 1 && old(records) <= records
      ensures old(world.chain) <= world.chain && |world.chain| <= |old(world.chain)| + 1
      ensures ok ==> Reached(records, phase) && (old(Ready()) ==> Ready())
      ensures ok ==> Recorded(records[|old(records)|]) in world.log
      ensures ok ==> var r := records[|old(records)|]; r.phase == phase && r.envelope == envelope && r.journal == journal
      ensures world.effects == old(world.effects)
      ensures old(world.Quiet()) ==> world.Quiet() && world.cloud == old(world.cloud)
      ensures (old(world.Undisturbed(e)) && Paired(|old(records)| + 1, |world.effects|) &&
               ExpectedNext(e, world.base, |old(records)|, phase, envelope, journal)) ==> world.Undisturbed(e)
      ensures old(world.Undisturbed(e) && world.Serene(e)) && Order(phase) == |old(records)| ==>
                ok && world.Serene(e)
    {
      hide Holds, ValidChain, SafeLog, LastOpening, Observed, Expected, Canonical, CloudAfter, FileName, Chained,
        Paired, Reached;
      ghost var before := records;
      var advances, record := NextRecord(phase, envelope, journal);
      if !advances {
        return false;
      }
      ok := world.WriteRecord(record);
      if ok {
        records := records + [record];
        LastReached(records);
        if Reached(before, EnvelopeSealed) {
          ReachedGrows(before, records, EnvelopeSealed);
        }
      }
    }

    /** The mutation a quiet handoff performs next from `n` records and `k` effects. */
    ghost predicate Due(m: Mutation)
      reads world
    {
      var k := |world.effects|;
      k < 6 && m == Canonical(e)[k] && Paired(|world.chain|, k + 1)
    }

    method Perform(m: Mutation) returns (reply: Reply)
      requires world.Valid() && world.envelope == Some(e)
      requires m.LockRetention? ==> Justified(e, world.log, m.expectedMetageneration)
      modifies world`script, world`cloud, world`log, world`effects
      ensures world.Valid() && Grew(old(world.log), world.log)
      ensures reply.Done? && m.Upload? ==>
                m.name in world.cloud.objects && Matches(world.cloud.objects[m.name].descriptor, m.content)
      ensures old(world.Undisturbed(e) && Due(m)) ==>
                world.Undisturbed(e) && (world.effects == old(world.effects) || |world.effects| == |old(world.effects)| + 1)
      ensures old(world.Undisturbed(e) && !Permitted(world.cloud, m)) ==>
                world.Undisturbed(e) && world.effects == old(world.effects) && !reply.Done?
      ensures reply.Done? ==> |world.effects| == |old(world.effects)| + 1
      ensures reply.PreconditionFailed? ==> world.effects == old(world.effects)
      ensures old(world.Serene(e)) ==> world.Serene(e)
      ensures old(world.Undisturbed(e) && world.Serene(e) && Due(m)) ==> reply.Done?
      ensures old(world.Serene(e) && !Permitted(world.cloud, m) && world.cloud.bucket.Some?) && m.Upload? ==>
                reply.PreconditionFailed?
    {
      hide Holds, ValidChain, SafeLog, LastOpening, Observed, Expected, Canonical, CloudAfter, FileName, Paired,
        Crc32c, Justified;
      ghost var k := |world.effects|;
      if k < 6 {
        CanonicalStep(e, world.base, k);
      }
      ghost var met;
      reply, met := world.Mutate(m);
      assert k < 6 && old(world.effects) == Canonical(e)[..k] ==> old(world.effects) + [Canonical(e)[k]] == Canonical(e)[..k + 1];
    }

    /** Re-reads an object: absent, the same bytes, or a conflict. */
    method RemoteObjectMatches(name: string, content: Bytes) returns (ok: bool, matches: bool)
      requires world.Valid() && world.envelope == Some(e)
      modifies world`script, world`cloud, world`log
      ensures world.Valid() && Grew(old(world.log), world.log)
      ensures old(world.Undisturbed(e)) ==> world.Undisturbed(e)
      ensures old(world.Serene(e)) ==> world.Serene(e)
      ensures old(world.Quiet()) && ok ==> (matches <==> name in old(world.cloud.objects))
      ensures old(world.Quiet() && world.Calm()) &&
              (name in old(world.cloud.objects) ==>
                 Matches(old(world.cloud.objects)[name].descriptor, content) && old(world.cloud.objects)[name].content == content)
              ==> ok
    {
      hide Holds, ValidChain, SafeLog, LastOpening, Observed, Expected, Canonical, CloudAfter, FileName, Paired, Crc32c;
      var read, remote := world.ReadObject(name);
      if !read {
        return false, false;
      }
      if remote.None? {
        return true, false;
      }
      if !Matches(remote.value.descriptor, content) || remote.value.content != content {
        return false, false;
      }
      return true, true;
    }

    /** What a quiet run finds when an upload is due. */
    lemma UploadIsDue(name: string, content: Bytes)
      requires Ready() && world.Undisturbed(e) && UploadDue(name, content)
      ensures Due(Upload(name, content)) ||
              (HoldsContent(name, content) && !Permitted(world.cloud, Upload(name, content)) && world.cloud.bucket.Some?)
    {
      hide Holds, ValidChain, SafeLog, Logged, Expected, Canonical, CloudAfter, FileName, Crc32c, Matches;
      QuietCloud(e, world.base, |world.effects|);
    }

    /** Creates the object, or accepts the same bytes already there. */
    method UploadCreateOnly(name: string, content: Bytes) returns (ok: bool, descriptor: Descriptor)
      requires Ready()
      modifies world`script, world`cloud, world`log, world`effects, world`now, world`ticks
      ensures world.Valid() && Grew(old(world.log), world.log)
      ensures ok ==> Matches(descriptor, content)
      ensures old(world.Undisturbed(e)) && old(UploadDue(name, content)) ==>
                && world.Undisturbed(e)
                && (ok ==> name in world.cloud.objects && descriptor == world.cloud.objects[name].descriptor)
      ensures old(world.Undisturbed(e) && world.Serene(e)) && old(UploadDue(name, content)) ==> ok && world.Serene(e)
    {
      hide Holds, ValidChain, SafeLog, LastOpening, Observed, Expected, Canonical, CloudAfter, FileName, Paired,
        Crc32c, Justified, World.Steady, Matches, Session.UploadDue;
      ghost var due := world.Undisturbed(e) && UploadDue(name, content);
      if due {
        UploadIsDue(name, content);
      }
      descriptor := Descriptor(0, 0, 0);
      var authorized := AuthorizeMutation();
      if !authorized {
        return false, descriptor;
      }
      var reply := Perform(Upload(name, content));
      if reply.Done? {
        descriptor := world.cloud.objects[name].descriptor;
        return true, descriptor;
      }
      if !reply.PreconditionFailed? {
        return false, descriptor;
      }
      ok, descriptor := AcceptUploaded(name, content);
    }

    /** The provider holds the content under the name. */
    ghost predicate HoldsContent(name: string, content: Bytes)
      reads world`cloud
    {
      && name in world.cloud.objects && world.cloud.objects[name].content == content
      && Matches(world.cloud.objects[name].descriptor, content)
    }

    /** Reads back an object that was already there. */
    method AcceptUploaded(name: string, content: Bytes) returns (ok: bool, descriptor: Descriptor)
      requires Ready()
      modifies world`script, world`cloud, world`log
      ensures world.Valid() && Grew(old(world.log), world.log)
      ensures ok ==> Matches(descriptor, content)
      ensures old(world.Undisturbed(e)) ==>
                && world.Undisturbed(e)
                && (ok ==> name in world.cloud.objects && descriptor == world.cloud.objects[name].descriptor)
      ensures old(world.Serene(e)) ==> world.Serene(e)
      ensures old(world.Undisturbed(e) && world.Serene(e) && HoldsContent(name, content)) ==> ok
    {
      hide Holds, ValidChain, SafeLog, LastOpening, Observed, Expected, Canonical, CloudAfter, FileName, Paired,
        Crc32c, Justified, Matches;
      descriptor := Descriptor(0, 0, 0);
      var read, matches := RemoteObjectMatches(name, content);
      if !read || !matches {
        return false, descriptor;
      }
      var described, existing := world.DescribeObject(name);
      if !described || existing.None? || !Matches(existing.value, content) {
        return false, descriptor;
      }
      return true, existing.value;
    }

    /** The object a quiet handoff uploads next, written or not yet. */
    ghost predicate UploadDue(name: string, content: Bytes)
      reads world
    {
      var n, k := |world.chain|, |world.effects|;
      || (n == 3 && name == e.EnvelopeName() && content == e.envelopeJSON && (k == 2 || (k == 1 && Due(Upload(name, content)))))
      || (n == 4 && name == e.JournalName() && content == e.journalJSON && (k == 3 || (k == 2 && Due(Upload(name, content)))))
    }

    /** In a quiet run a phase is reached exactly when the chain is longer than its place. */
    ghost method ReachedFacts()
      requires Ready()
      ensures world.Undisturbed(e) ==> forall p :: Reached(records, p) <==> Order(p) < |records|
      ensures 1 <= |records|
    {
      if world.Undisturbed(e) {
        forall p ensures Reached(records, p) <==> Order(p) < |records| {
          ExpectedReached(e, world.base, records, p);
        }
      }
    }

    method AdoptExistingBucket(state: BucketState) returns (ok: bool)
      requires Ready() && !Reached(records, HandoffVerified)
      modifies world, this
      ensures world.Valid() && world.envelope == Some(e) && Grew(old(world.log), world.log)
      ensures ok ==> Ready() && old(records) <= records && Reached(records, AuditBucketCreated)
      ensures old(world.Undisturbed(e) && world.cloud.bucket == Some(state)) ==> world.Undisturbed(e)
      ensures old(world.Undisturbed(e) && world.cloud.bucket == Some(state)) && ok ==> |records| == AtLeast(|old(records)|, 3)
      ensures old(world.Undisturbed(e) && world.cloud.bucket == Some(state) && world.Orphaned()) ==>
                !ok && world.chain == old(world.chain) && world.effects == old(world.effects)
      ensures old(world.Undisturbed(e) && world.cloud.bucket == Some(state) && world.Serene(e) && !world.Orphaned()) ==>
                ok && world.Serene(e)
    {
      hide Holds, ValidChain, SafeLog, LastOpening, Observed, Expected, Canonical, CloudAfter, FileName, Crc32c,
        Justified, Reached, World.Calm, World.Valid, World.Serene;
      ReachedFacts();
      QuietCloud(e, world.base, if |world.effects| <= 6 then |world.effects| else 0);
      if !PreLockState(e, state) {
        return false;
      }
      if Reached(records, AuditBucketCreated) {
        return true;
      }
      var read, matches := RemoteObjectMatches(e.EnvelopeName(), e.envelopeJSON);
      if !read || !matches {
        return false;
      }
      ok := Append(AuditBucketCreated, None, None);
    }

    /** The create call, its read-back and its record. */
    method CreateAndRecordBucket() returns (ok: bool)
      requires Ready()
      modifies world, this
      ensures world.Valid() && world.envelope == Some(e) && Grew(old(world.log), world.log)
      ensures ok ==> Ready() && old(records) <= records && Reached(records, AuditBucketCreated)
      ensures old(world.Undisturbed(e)) && |old(records)| == 2 && |old(world.effects)| == 0 ==> world.Undisturbed(e)
      ensures ok ==> |records| == |old(records)| + 1
      ensures old(world.Undisturbed(e) && world.Serene(e)) && |old(records)| == 2 && |old(world.effects)| == 0 ==>
                ok && world.Serene(e)
    {
      hide Holds, ValidChain, SafeLog, LastOpening, Observed, Expected, CloudAfter, FileName, Crc32c, Justified,
        Reached, World.Quiet, World.Calm, World.Steady, World.Valid;
      ReachedFacts();
      var reply := Perform(CreateBucket(e.bucket));
      if !reply.Done? {
        return false;
      }
      QuietCloud(e, world.base, if |world.effects| <= 6 then |world.effects| else 0);
      var described, state := world.DescribeBucket();
      if !described || state.None? || !PreLockState(e, state.value) {
        return false;
      }
      ok := Append(AuditBucketCreated, None, None);
    }

    /** Claims the creation of an absent bucket, then creates and records it. */
    method ClaimAndCreateBucket() returns (ok: bool)
      requires Ready() && !Reached(records, AuditBucketCreated)
      modifies world, this
      ensures world.Valid() && world.envelope == Some(e) && Grew(old(world.log), world.log)
      ensures ok ==> Ready() && old(records) <= records && Reached(records, AuditBucketCreated)
      ensures old(world.Undisturbed(e)) && old(world.cloud.bucket).None? ==> world.Undisturbed(e) && (ok ==> |records| == 3)
      ensures old(world.Undisturbed(e) && world.Serene(e)) && old(world.cloud.bucket).None? ==> ok && world.Serene(e)
    {
      hide Holds, ValidChain, SafeLog, LastOpening, Observed, Expected, Canonical, CloudAfter, FileName, Crc32c,
        Justified, Reached, World.Quiet, World.Steady;
      ReachedFacts();
      QuietCloud(e, world.base, if |world.effects| <= 6 then |world.effects| else 0);
      if !Reached(records, AuditBucketClaimed) {
        ok := Append(AuditBucketClaimed, None, None);
        if !ok {
          return;
        }
      }
      ok := AuthorizeMutation();
      if !ok {
        return;
      }
      ok := CreateAndRecordBucket();
    }

    /** Creates the audit bucket, or adopts one this operation provably owns. */
    method EnsureBucket() returns (ok: bool)
      requires Ready() && !Reached(records, HandoffVerified)
      modifies world, this
      ensures world.Valid() && world.envelope == Some(e) && Grew(old(world.log), world.log)
      ensures ok ==> Ready() && old(records) <= records && Reached(records, AuditBucketCreated)
      ensures old(world.Undisturbed(e)) ==> world.Undisturbed(e)
      ensures old(world.Undisturbed(e) && world.Orphaned()) ==>
                !ok && world.chain == old(world.chain) && world.effects == old(world.effects)
      ensures old(world.Undisturbed(e)) && ok ==> |records| == AtLeast(|old(records)|, 3)
      ensures old(world.Undisturbed(e) && world.Serene(e) && !world.Orphaned()) ==> ok && world.Serene(e)
    {
      hide Holds, ValidChain, SafeLog, LastOpening, Observed, Expected, Canonical, CloudAfter, FileName, Crc32c,
        Justified, Reached;
      ReachedFacts();
      QuietCloud(e, world.base, if |world.effects| <= 6 then |world.effects| else 0);
      var described, state := world.DescribeBucket();
      if !described {
        return false;
      }
      if state.Some? {
        ok := AdoptExistingBucket(state.value);
        return;
      }
      if Reached(records, AuditBucketCreated) {
        return false;
      }
      ok := ClaimAndCreateBucket();
    }

    method EnsureUploads() returns (ok: bool)
      requires Ready() && Reached(records, AuditBucketCreated)
      modifies world, this
      ensures world.Valid() && world.envelope == Some(e) && Grew(old(world.log), world.log)
      ensures ok ==> Ready() && old(records) <= records
      ensures old(world.Undisturbed(e)) ==> world.Undisturbed(e)
      ensures old(world.Undisturbed(e) && world.Serene(e)) ==> ok && world.Serene(e)
      ensures old(world.Undisturbed(e)) && ok ==> |records| == AtLeast(|old(records)|, 5)
    {
      hide Holds, ValidChain, SafeLog, LastOpening, Observed, Expected, Canonical, CloudAfter, FileName, Crc32c,
        Justified, Reached;
      ReachedFacts();
      if !Reached(records, EnvelopeUploaded) {
        ok := UploadAndRecordEnvelope();
        if !ok {
          return;
        }
      }
      ReachedFacts();
      if !Reached(records, JournalUploaded) {
        ok := UploadAndRecordJournal();
        if !ok {
          return;
        }
      }
      ok := true;
    }

    method UploadAndRecordEnvelope() returns (ok: bool)
      requires Ready()
      modifies world, this
      ensures world.Valid() && world.envelope == Some(e) && Grew(old(world.log), world.log)
      ensures ok ==> Ready() && old(records) <= records && |records| == |old(records)| + 1
      ensures old(world.Undisturbed(e)) && |old(records)| == 3 ==> world.Undisturbed(e)
      ensures old(world.Undisturbed(e) && world.Serene(e)) && |old(records)| == 3 ==> ok && world.Serene(e)
    {
      hide Holds, ValidChain, SafeLog, LastOpening, Observed, Expected, CloudAfter, FileName, Crc32c, Justified,
        Reached, World.Quiet, World.Steady, World.Valid, World.Serene;
      var uploaded, descriptor := UploadCreateOnly(e.EnvelopeName(), e.envelopeJSON);
      QuietCloud(e, world.base, if |world.effects| <= 6 then |world.effects| else 0);
      if !uploaded {
        return false;
      }
      ok := Append(EnvelopeUploaded, Some(descriptor), None);
    }

    method UploadAndRecordJournal() returns (ok: bool)
      requires Ready()
      modifies world, this
      ensures world.Valid() && world.envelope == Some(e) && Grew(old(world.log), world.log)
      ensures ok ==> Ready() && old(records) <= records && |records| == |old(records)| + 1
      ensures old(world.Undisturbed(e)) && |old(records)| == 4 ==> world.Undisturbed(e)
      ensures old(world.Undisturbed(e) && world.Serene(e)) && |old(records)| == 4 ==> ok && world.Serene(e)
    {
      hide Holds, ValidChain, SafeLog, LastOpening, Observed, Expected, CloudAfter, FileName, Crc32c, Justified,
        Reached, World.Quiet, World.Steady, World.Valid, World.Serene;
      var uploaded, descriptor := UploadCreateOnly(e.JournalName(), e.journalJSON);
      QuietCloud(e, world.base, if |world.effects| <= 6 then |world.effects| else 0);
      if !uploaded {
        return false;
      }
      ok := Append(JournalUploaded, None, Some(descriptor));
    }

    /** What a quiet run finds when the lifecycle phase is due. */
    lemma LifecycleIsDue()
      requires Ready()
      ensures world.Undisturbed(e) && |records| == 5 ==>
                && world.cloud.bucket.Some? && PreLockState(e, world.cloud.bucket.value)
                && (if world.cloud.bucket.value.archiveAfterDay == AUDIT_ARCHIVE_AFTER_DAYS
                    then |world.effects| == 4 else |world.effects| == 3 && Due(ConfigureLifecycle))
    {
      hide Holds, ValidChain, SafeLog, LastOpening, Observed, CloudAfter, FileName, Crc32c, Justified, Reached;
      QuietCloud(e, world.base, if |world.effects| <= 6 then |world.effects| else 0);
    }

    method EnsureLifecycle() returns (ok: bool)
      requires Ready()
      modifies world, this
      ensures world.Valid() && world.envelope == Some(e) && Grew(old(world.log), world.log)
      ensures ok ==> Ready() && old(records) <= records
      ensures old(world.Undisturbed(e)) && |old(records)| >= 5 ==>
                world.Undisturbed(e) && (ok ==> |records| == AtLeast(|old(records)|, 6))
      ensures old(world.Undisturbed(e) && world.Serene(e)) && |old(records)| >= 5 ==> ok && world.Serene(e)
    {
      hide Holds, ValidChain, SafeLog, LastOpening, Observed, Expected, CloudAfter, FileName, Crc32c, Justified,
        Reached, World.Resumable, PreLockState, World.Quiet, World.Calm, World.Steady;
      ReachedFacts();
      LifecycleIsDue();
      if Reached(records, LifecycleConfigured) {
        return true;
      }
      var described, state := world.DescribeBucket();
      if !described || state.None? || !PreLockState(e, state.value) {
        return false;
      }
      if state.value.archiveAfterDay != AUDIT_ARCHIVE_AFTER_DAYS {
        ok := AuthorizeMutation();
        if !ok {
          return;
        }
        var reply := Perform(ConfigureLifecycle);
        if !reply.Done? {
          return false;
        }
      }
      ok := Append(LifecycleConfigured, None, None);
    }

    /** Requires the recorded descriptor and the exact bytes, twice observed. */
    method VerifyObject(name: string, content: Bytes, recorded: Descriptor) returns (ok: bool)
      requires world.Valid() && world.envelope == Some(e)
      modifies world`script, world`cloud, world`log
      ensures world.Valid() && Grew(old(world.log), world.log)
      ensures ok ==> Observed(world.log, SawObject(name, StoredObject(recorded, content)))
      ensures old(world.Undisturbed(e)) ==> world.Undisturbed(e)
      ensures old(world.Quiet()) ==> world.cloud == old(world.cloud)
      ensures old(world.Serene(e)) ==> world.Serene(e)
      ensures (old(world.Quiet() && world.Calm() && name in world.cloud.objects &&
                   world.cloud.objects[name] == StoredObject(recorded, content)) && Matches(recorded, content)) ==> ok
    {
      hide Holds, ValidChain, SafeLog, LastOpening, Observed, Expected, Canonical, CloudAfter, FileName, Crc32c, Paired;
      var described, observed := world.DescribeObject(name);
      if !described || observed.None? || observed.value != recorded || !Matches(observed.value, content) {
        return false;
      }
      var read, remote := world.ReadObject(name);
      return read && remote.Some? && remote.value.descriptor == recorded && remote.value.content == content;
    }

    /** Re-observes the bucket and both objects against the recorded uploads. */
    method VerifyObservation() returns (ok: bool, state: BucketState)
      requires Ready()
      modifies world`script, world`cloud, world`log
      ensures world.Valid() && Grew(old(world.log), world.log)
      ensures ok ==> Observed(world.log, SawBucket(state)) && CommonState(e, state)
      ensures ok ==> SawRecordedEnvelope(e, world.log) && SawRecordedJournal(e, world.log)
      ensures old(world.Undisturbed(e)) ==> world.Undisturbed(e) && (ok ==> world.cloud.bucket == Some(state))
      ensures old(world.Serene(e)) ==> world.Serene(e)
      ensures old(world.Undisturbed(e) && world.Serene(e)) && |records| >= 6 ==> ok
    {
      hide Holds, ValidChain, SafeLog, LastOpening, Observed, Expected, Canonical, CloudAfter, FileName, Crc32c,
        Reached, World.Quiet, World.Steady;
      ReachedFacts();
      QuietCloud(e, world.base, if |world.effects| <= 6 then |world.effects| else 0);
      state := Compliant(e.bucket);
      var described, observed := world.DescribeBucket();
      if !described || observed.None? {
        return false, state;
      }
      state := observed.value;
      if !CommonState(e, state) || state.archiveAfterDay != AUDIT_ARCHIVE_AFTER_DAYS {
        return false, state;
      }
      label Described:
      ok := VerifyUploads();
      ObservedStays(old@Described(world.log), world.log, SawBucket(state));
    }

    /** In a quiet run both recorded uploads are what the provider holds. */
    lemma UploadsAreHeld()
      requires Ready()
      ensures world.Undisturbed(e) && |records| >= 6 ==>
                && Holding(e.EnvelopeName(), e.envelopeJSON, RecordedAs(records, EnvelopeUploaded), true)
                && Holding(e.JournalName(), e.journalJSON, RecordedAs(records, JournalUploaded), false)
    {
      hide Holds, ValidChain, SafeLog, LastOpening, Observed, Canonical, CloudAfter, FileName, Crc32c, Reached;
      if world.Undisturbed(e) && |records| >= 6 {
        QuietCloud(e, world.base, |world.effects|);
        RecordedAsExpected(e, world.base, records, EnvelopeUploaded);
        RecordedAsExpected(e, world.base, records, JournalUploaded);
      }
    }

    /** The record carries a descriptor, and the object it describes is stored with the content. */
    ghost predicate Holding(name: string, content: Bytes, r: Option<HandoffRecord>, envelope: bool)
      reads world
    {
      && r.Some?
      && var d := if envelope then r.value.envelope else r.value.journal;
         d.Some? && Matches(d.value, content) && name in world.cloud.objects &&
         world.cloud.objects[name] == StoredObject(d.value, content)
    }

    method VerifyUploads() returns (ok: bool)
      requires Ready()
      modifies world`script, world`cloud, world`log
      ensures world.Valid() && Grew(old(world.log), world.log)
      ensures ok ==> SawRecordedEnvelope(e, world.log) && SawRecordedJournal(e, world.log)
      ensures old(world.Undisturbed(e)) ==> world.Undisturbed(e)
      ensures old(world.Serene(e)) ==> world.Serene(e)
      ensures old(world.Undisturbed(e) && world.Serene(e)) && |records| >= 6 ==> ok
    {
      hide Holds, ValidChain, SafeLog, LastOpening, Observed, Canonical, CloudAfter, FileName, Crc32c, Reached,
        Expected, Matches, Paired, World.Resumable, World.Quiet, World.Steady;
      UploadsAreHeld();
      var envelopeRecord := RecordedAs(records, EnvelopeUploaded);
      if envelopeRecord.None? || envelopeRecord.value.envelope.None? {
        return false;
      }
      var journalRecord := RecordedAs(records, JournalUploaded);
      if journalRecord.None? || journalRecord.value.journal.None? {
        return false;
      }
      ok := VerifyObject(e.EnvelopeName(), e.envelopeJSON, envelopeRecord.value.envelope.value);
      if !ok {
        return;
      }
      assert SawRecordedEnvelope(e, world.log) by {
        assert Recorded(envelopeRecord.value) in world.log;
      }
      label Seen:
      ok := VerifyObject(e.JournalName(), e.journalJSON, journalRecord.value.journal.value);
      EvidenceGrows(e, old@Seen(world.log), world.log);
      if ok {
        assert Recorded(journalRecord.value) in world.log;
      }
    }

    method Verify() returns (ok: bool)
      requires Ready()
      modifies world, this
      ensures world.Valid() && world.envelope == Some(e) && Grew(old(world.log), world.log)
      ensures ok ==> Ready() && Reached(records, HandoffVerified)
      ensures old(world.Undisturbed(e)) ==> |old(records)| == 6 ==> world.Undisturbed(e) && (ok ==> |records| == 7)
      ensures old(world.Undisturbed(e) && world.Serene(e)) && |old(records)| == 6 ==> ok && world.Serene(e)
    {
      hide Holds, ValidChain, SafeLog, LastOpening, Observed, Expected, Canonical, CloudAfter, FileName, Crc32c,
        Reached;
      var state;
      ok, state := VerifyObservation();
      if ok {
        ok := Append(HandoffVerified, None, None);
      }
    }

    /** What a session knows to be recorded is in the event log. */
    lemma PhaseIsLogged(phase: Phase)
      requires Ready() && Reached(records, phase)
      ensures RecordedPhase(world.log, phase)
    {
      var i :| 0 <= i < |records| && records[i].phase == phase;
      assert records[i] in world.chain;
      assert Recorded(records[i]) in world.log;
    }

    /** A bucket already locked: accepted only behind this operation's own claim. */
    method AcceptLocked(state: BucketState) returns (ok: bool)
      requires Ready() && state.retentionLocked && Observed(world.log, SawBucket(state))
      modifies world, this
      ensures world.Valid() && world.envelope == Some(e) && Grew(old(world.log), world.log)
      ensures ok ==> Reached(world.chain, RetentionLocked)
      ensures ok ==> state.retentionSeconds == AUDIT_RETENTION_SECONDS && Reached(old(records), RetentionLockClaimed)
      ensures world.effects == old(world.effects)
      ensures old(world.Undisturbed(e) && world.cloud.bucket == Some(state)) ==> world.Undisturbed(e)
      ensures old(world.Undisturbed(e) && world.cloud.bucket == Some(state) && world.Serene(e)) ==>
                ok && world.Serene(e) && |world.chain| == 10
    {
      hide Holds, ValidChain, SafeLog, LastOpening, Observed, Expected, Canonical, CloudAfter, FileName, Crc32c,
        Reached;
      ReachedFacts();
      QuietCloud(e, world.base, if |world.effects| <= 6 then |world.effects| else 0);
      if state.retentionSeconds != AUDIT_RETENTION_SECONDS || !Reached(records, RetentionLockClaimed) {
        return false;
      }
      ok := true;
      if !Reached(records, RetentionLocked) {
        ok := Append(RetentionLocked, None, None);
      }
    }

    /** Everything after the opening checks of LockAuditRetention. */
    method Lock() returns (ok: bool)
      requires Ready() && Reached(records, HandoffVerified)
      modifies world, this
      ensures world.Valid() && world.envelope == Some(e) && Grew(old(world.log), world.log)
      ensures ok ==> Reached(world.chain, RetentionLocked)
      ensures old(world.Undisturbed(e)) ==> world.Undisturbed(e)
      ensures old(world.Undisturbed(e) && world.Serene(e)) ==>
                ok && world.Serene(e) && |world.chain| == 10 && |world.effects| == 6
    {
      hide Holds, ValidChain, SafeLog, LastOpening, Observed, Expected, Canonical, CloudAfter, FileName, Crc32c,
        Reached;
      ReachedFacts();
      QuietCloud(e, world.base, if |world.effects| <= 6 then |world.effects| else 0);
      var state;
      ok, state := VerifyObservation();
      if !ok {
        return;
      }
      if state.retentionLocked {
        ok := AcceptLocked(state);
        return;
      }
      ok := LockObserved(state);
    }

    /** The policy in force, configured now where the bucket had none. */
    method EnsureRetained(observed: BucketState) returns (ok: bool, state: BucketState)
      requires Ready() && Reached(records, HandoffVerified)
      requires !observed.retentionLocked && Observed(world.log, SawBucket(observed))
      requires SawRecordedEnvelope(e, world.log) && SawRecordedJournal(e, world.log)
      modifies world, this
      ensures world.Valid() && world.envelope == Some(e) && Grew(old(world.log), world.log)
      ensures records == old(records) && world.chain == old(world.chain)
      ensures ok ==> Ready() && SawRetention(world.log, state.metageneration)
      ensures ok ==> SawRecordedEnvelope(e, world.log) && SawRecordedJournal(e, world.log)
      ensures old(world.Undisturbed(e) && world.cloud.bucket == Some(observed)) ==>
                world.Undisturbed(e) && (ok ==> |world.effects| == 5 && world.cloud.bucket == Some(state))
      ensures old(world.Undisturbed(e) && world.cloud.bucket == Some(observed) && world.Serene(e)) ==> ok && world.Serene(e)
    {
      hide Holds, ValidChain, SafeLog, LastOpening, Observed, Expected, Canonical, CloudAfter, FileName, Crc32c,
        Reached, SawRecordedEnvelope, SawRecordedJournal;
      ReachedFacts();
      QuietCloud(e, world.base, if |world.effects| <= 6 then |world.effects| else 0);
      state := observed;
      if state.retentionSeconds != AUDIT_RETENTION_SECONDS {
        if state.retentionSeconds != 0 {
          return false, state;
        }
        ok, state := Retain();
        if !ok {
          return;
        }
      }
      assert Observed(world.log, SawBucket(state));
      ok := true;
    }

    /** Configures the policy where it is missing, claims the lock, and locks. */
    method LockObserved(observed: BucketState) returns (ok: bool)
      requires Ready() && Reached(records, HandoffVerified)
      requires !observed.retentionLocked && Observed(world.log, SawBucket(observed))
      requires SawRecordedEnvelope(e, world.log) && SawRecordedJournal(e, world.log)
      modifies world, this
      ensures world.Valid() && world.envelope == Some(e) && Grew(old(world.log), world.log)
      ensures ok ==> Reached(world.chain, RetentionLocked)
      ensures old(world.Undisturbed(e) && world.cloud.bucket == Some(observed)) ==> world.Undisturbed(e)
      ensures old(world.Undisturbed(e) && world.cloud.bucket == Some(observed) && world.Serene(e)) ==>
                ok && world.Serene(e) && |world.chain| == 10 && |world.effects| == 6
    {
      hide Holds, ValidChain, SafeLog, LastOpening, Observed, Expected, Canonical, CloudAfter, FileName, Crc32c,
        Reached, SawRecordedEnvelope, SawRecordedJournal, SawRetention, RecordedPhase, Paired;
      var state;
      ok, state := EnsureRetained(observed);
      if !ok {
        return;
      }
      label Retained:
      ok := Claim();
      if ok {
        EvidenceGrows(e, old@Retained(world.log), world.log);
        RetentionEvidenceGrows(old@Retained(world.log), world.log, state.metageneration);
        ok := LockClaimed(state);
      }
    }

    /** Configures the 365-day policy and observes it in force, unlocked. */
    method Retain() returns (ok: bool, state: BucketState)
      requires Ready()
      modifies world, this
      ensures world.Valid() && world.envelope == Some(e) && Grew(old(world.log), world.log)
      ensures records == old(records) && world.chain == old(world.chain)
      ensures ok ==> Ready() && Observed(world.log, SawBucket(state))
      ensures ok ==> SawRecordedEnvelope(e, world.log) && SawRecordedJournal(e, world.log)
      ensures ok ==> state.retentionSeconds == AUDIT_RETENTION_SECONDS && !state.retentionLocked
      ensures old(world.Undisturbed(e)) && |old(records)| == 7 && |old(world.effects)| == 4 ==>
                world.Undisturbed(e) && (ok ==> |world.effects| == 5 && world.cloud.bucket == Some(state))
      ensures old(world.Undisturbed(e) && world.Serene(e)) && |old(records)| == 7 && |old(world.effects)| == 4 ==>
                ok && world.Serene(e)
    {
      hide Holds, ValidChain, SafeLog, LastOpening, Observed, Expected, CloudAfter, FileName, Crc32c, Reached,
        World.Steady;
      state := Compliant(e.bucket);
      ok := AuthorizeMutation();
      if !ok {
        return;
      }
      var reply := Perform(ConfigureRetention(AUDIT_RETENTION_SECONDS));
      if !reply.Done? {
        return false, state;
      }
      QuietCloud(e, world.base, if |world.effects| <= 6 then |world.effects| else 0);
      ok, state := VerifyObservation();
      if ok && (state.retentionSeconds != AUDIT_RETENTION_SECONDS || state.retentionLocked) {
        return false, state;
      }
    }

    /** Records a retention phase that is not recorded yet. */
    method EnsureRecorded(phase: Phase) returns (ok: bool)
      requires Ready() && (phase.RetentionConfigured? || phase.RetentionLockClaimed?)
      modifies world, this
      ensures world.Valid() && world.envelope == Some(e) && Grew(old(world.log), world.log)
      ensures world.effects == old(world.effects)
      ensures ok ==> Ready() && RecordedPhase(world.log, phase)
      ensures old(world.Undisturbed(e)) && |world.effects| == 5 && Order(phase) <= |old(records)| ==>
                && world.Undisturbed(e) && world.cloud == old(world.cloud)
                && (ok ==> |records| == AtLeast(|old(records)|, Order(phase) + 1))
      ensures old(world.Undisturbed(e) && world.Serene(e)) && |world.effects| == 5 && Order(phase) <= |old(records)| ==>
                ok && world.Serene(e)
    {
      hide Holds, ValidChain, SafeLog, LastOpening, Observed, Expected, Canonical, CloudAfter, FileName, Crc32c,
        Reached, World.Valid, World.Serene;
      ReachedFacts();
      ok := true;
      if !Reached(records, phase) {
        ok := Append(phase, None, None);
        if !ok {
          return;
        }
      }
      PhaseIsLogged(phase);
    }

    /** Records the configured policy and the claim to lock it. */
    method Claim() returns (ok: bool)
      requires Ready() && Reached(records, HandoffVerified)
      modifies world, this
      ensures world.Valid() && world.envelope == Some(e) && Grew(old(world.log), world.log)
      ensures ok ==> Ready() && world.effects == old(world.effects)
      ensures ok ==> RecordedPhase(world.log, HandoffVerified) && RecordedPhase(world.log, RetentionConfigured) &&
                     RecordedPhase(world.log, RetentionLockClaimed)
      ensures world.effects == old(world.effects)
      ensures old(world.Undisturbed(e)) && |old(world.effects)| == 5 ==>
                world.Undisturbed(e) && world.cloud == old(world.cloud) && (ok ==> |records| == 9)
      ensures old(world.Undisturbed(e) && world.Serene(e)) && |old(world.effects)| == 5 ==> ok && world.Serene(e)
    {
      hide Holds, ValidChain, SafeLog, LastOpening, Observed, Expected, Canonical, CloudAfter, FileName, Crc32c,
        Reached, World.Valid, World.Serene, RecordedPhase, SawRecordedEnvelope, SawRecordedJournal;
      ReachedFacts();
      PhaseIsLogged(HandoffVerified);
      ok := EnsureRecorded(RetentionConfigured);
      if !ok {
        return;
      }
      EvidenceGrows(e, old(world.log), world.log);
      label Configured:
      ok := EnsureRecorded(RetentionLockClaimed);
      EvidenceGrows(e, old@Configured(world.log), world.log);
    }

    ghost predicate LockDue(state: BucketState)
      reads this, world
    {
      world.cloud.bucket == Some(state) && |records| == 9 && |world.effects| == 5
    }

    /** The irreversible call, its observation and its record. */
    method LockClaimed(state: BucketState) returns (ok: bool)
      requires Ready() && Justified(e, world.log, state.metageneration)
      modifies world, this
      ensures world.Valid() && world.envelope == Some(e) && Grew(old(world.log), world.log)
      ensures ok ==> Reached(world.chain, RetentionLocked)
      ensures old(world.Undisturbed(e) && LockDue(state)) ==> world.Undisturbed(e)
      ensures old(world.Undisturbed(e) && LockDue(state) && world.Serene(e)) ==>
                ok && world.Serene(e) && |world.chain| == 10 && |world.effects| == 6
    {
      hide Holds, ValidChain, SafeLog, LastOpening, Observed, Expected, Canonical, CloudAfter, FileName, Crc32c,
        Reached, Justified;
      LockComesSixth(e);
      QuietCloud(e, world.base, if |world.effects| <= 6 then |world.effects| else 0);
      ok := AuthorizeMutation();
      if !ok {
        return;
      }
      var reply := Perform(LockRetention(state.metageneration));
      if !reply.Done? {
        return false;
      }
      ok := RecordObservedLock();
    }

    method RecordObservedLock() returns (ok: bool)
      requires Ready()
      modifies world, this
      ensures world.Valid() && world.envelope == Some(e) && Grew(old(world.log), world.log)
      ensures ok ==> Reached(world.chain, RetentionLocked)
      ensures world.effects == old(world.effects)
      ensures old(world.Undisturbed(e)) && |old(records)| == 9 && |old(world.effects)| == 6 ==> world.Undisturbed(e)
      ensures old(world.Undisturbed(e) && world.Serene(e)) && |old(records)| == 9 && |old(world.effects)| == 6 ==>
                ok && world.Serene(e) && |world.chain| == 10
    {
      hide Holds, ValidChain, SafeLog, LastOpening, Observed, Expected, Canonical, CloudAfter, FileName, Crc32c,
        Reached;
      QuietCloud(e, world.base, if |world.effects| <= 6 then |world.effects| else 0);
      var locked;
      ok, locked := VerifyObservation();
      if !ok {
        return;
      }
      if !locked.retentionLocked || locked.retentionSeconds != AUDIT_RETENTION_SECONDS {
        return false;
      }
      ok := Append(RetentionLocked, None, None);
    }
  }

  /** The envelope stored on disk, written now or found there with the same hash. */
  method EnsureEnvelope(world: World, e: Envelope) returns (ok: bool, stored: Envelope)
    requires world.Valid()
    modifies world`script, world`cloud, world`envelope
    ensures world.Valid()
    ensures world.envelope == old(world.envelope) || (old(world.envelope).None? && world.envelope == Some(e))
    ensures ok ==> world.envelope == Some(stored) && stored.hash == e.hash
    ensures old(world.Undisturbed(e)) ==> world.Undisturbed(e) && (ok ==> stored == e)
    ensures old(world.Serene(e)) ==> world.Serene(e)
    ensures old(world.Undisturbed(e) && world.Serene(e)) ==> ok
  {
    hide Holds, ValidChain, SafeLog, LastOpening, Observed, Canonical, CloudAfter, FileName, Crc32c, Expected;
    var written := world.WriteEnvelope(e);
    if written {
      return true, e;
    }
    if world.envelope.None? || world.envelope.value.hash != e.hash {
      return false, e;
    }
    return true, world.envelope.value;
  }

  /** Opens a run: approval window, stored envelope, record chain, first record. */
  method Open(world: World, e: Envelope) returns (session: Session?)
    requires world.Valid()
    modifies world
    ensures world.Valid() && (world.log == old(world.log) || old(world.log) + [Opened] <= world.log)
    ensures session != null ==> old(world.log) + [Opened] <= world.log
    ensures session != null ==> fresh(session) && session.world == world && session.Ready() && session.e.hash == e.hash
    ensures old(world.Undisturbed(e)) ==> world.Undisturbed(e) && (session != null ==> session.e == e)
    ensures old(world.chain) <= world.chain && |world.chain| <= |old(world.chain)| + 1
    ensures old(world.chain) != [] && old(world.Undisturbed(e)) ==> world.chain == old(world.chain)
    ensures world.effects == old(world.effects)
    ensures old(world.Undisturbed(e) && world.Serene(e)) ==> session != null && world.Serene(e)
  {
    hide Holds, ValidChain, SafeLog, LastOpening, Observed, Canonical, CloudAfter, FileName, Crc32c, Expected, Reached;
    var now := world.Now();
    if !e.ValidAt(now) {
      return null;
    }
    var stored, envelope := EnsureEnvelope(world, e);
    if !stored {
      return null;
    }
    var read, records := ReadHandoffRecords(world, envelope);
    if !read {
      return null;
    }
    HeldChainUnique(envelope, world.files, records, world.chain);
    world.Begin();
    var run := new Session(world, envelope, records);
    if world.Undisturbed(e) {
      ExpectedReached(e, world.base, records, EnvelopeSealed);
    }
    if !Reached(records, EnvelopeSealed) {
      var sealed := run.Append(EnvelopeSealed, None, None);
      if !sealed {
        return null;
      }
    }
    return run;
  }

  /** Whatever a run adds to the log after its opening, its calls follow that opening. */
  lemma RunsOpened(before: seq<Event>, start: seq<Event>)
    requires start == before || before + [Opened] <= start
    ensures CallsInRun(start, |before|)
    ensures before + [Opened] <= start ==> forall after :: start <= after ==> CallsInRun(after, |before|)
  {
    if before + [Opened] <= start {
      forall after | start <= after ensures CallsInRun(after, |before|) {
        RunIsOpened(before, after);
      }
    }
  }

  /** K1a: performs or resumes everything up to the verified handoff; never locks. */
  method Bootstrap(world: World, e: Envelope) returns (ok: bool)
    requires world.Valid()
    modifies world
    ensures world.Valid() && old(world.log) <= world.log && CallsInRun(world.log, |old(world.log)|)
    ensures ok ==> Reached(world.chain, HandoffVerified)
    ensures old(world.Undisturbed(e)) ==> world.Undisturbed(e)
    ensures old(world.Undisturbed(e) && world.Orphaned()) ==> !ok && world.Orphaned()
    ensures old(world.Undisturbed(e) && world.Serene(e) && !world.Orphaned()) ==>
              ok && world.Serene(e) && |world.chain| >= 7
  {
    hide Holds, ValidChain, SafeLog, LastOpening, Observed, Canonical, CloudAfter, FileName, Crc32c, Expected,
      Reached, Paired, World.Steady, World.Valid, World.Serene;
    var session := Open(world, e);
    RunsOpened(old(world.log), world.log);
    if session == null {
      return false;
    }
    session.ReachedFacts();
    if Reached(session.records, HandoffVerified) {
      var state;
      ok, state := session.VerifyObservation();
      return;
    }
    ok := session.EnsureBucket();
    if !ok {
      return;
    }
    ok := session.EnsureUploads();
    if !ok {
      return;
    }
    ok := session.EnsureLifecycle();
    if !ok {
      return;
    }
    ok := session.Verify();
  }

  /** K1b: the irreversible lock, behind its own durable claim. */
  method LockAuditRetention(world: World, e: Envelope) returns (ok: bool)
    requires world.Valid()
    modifies world
    ensures world.Valid() && old(world.log) <= world.log && CallsInRun(world.log, |old(world.log)|)
    ensures ok ==> Reached(world.chain, RetentionLocked)
    ensures old(world.Undisturbed(e)) ==> world.Undisturbed(e)
    ensures old(world.Undisturbed(e) && world.Orphaned()) ==> !ok && world.Orphaned()
    ensures old(world.Undisturbed(e) && world.Serene(e)) && |old(world.chain)| >= 7 ==>
              ok && world.Serene(e) && |world.chain| == 10 && world.effects == Canonical(e)
  {
    hide Holds, ValidChain, SafeLog, LastOpening, Observed, Canonical, CloudAfter, FileName, Crc32c, Expected, Reached;
    var session := Open(world, e);
    RunsOpened(old(world.log), world.log);
    if session == null {
      return false;
    }
    session.ReachedFacts();
    if !Reached(session.records, HandoffVerified) {
      return false;
    }
    ok := session.Lock();
    LockComesSixth(e);
  }
}
