/** The audit bucket as a provider holds it, and the handoff's local records. */
module AuditProvider {
  import opened Common
  import opened Text

  const AUDIT_RETENTION_SECONDS: int := 365 * 24 * 60 * 60
  const AUDIT_ARCHIVE_AFTER_DAYS: int := 365

  datatype BucketIdentity = BucketIdentity(name: string, project: string, location: string)

  datatype BucketState = BucketState(
    identity: BucketIdentity, uniformAccess: bool, publicAccessPrevention: string, storageClass: string,
    versioning: bool, retentionSeconds: int, retentionLocked: bool, archiveAfterDay: int, deleteRule: bool,
    metageneration: int)

  type Bytes = seq<bv8>

  datatype Descriptor = Descriptor(generation: nat, size: nat, crc32c: bv32)

  /** One bit of the reflected Castagnoli polynomial division. */
  function CrcBit(crc: bv32): bv32 {
    if crc & 1 == 1 then (crc >> 1) ^ 0x82F6_3B78 else crc >> 1
  }

  function CrcByte(crc: bv32, byte: bv8): bv32 {
    CrcBit(CrcBit(CrcBit(CrcBit(CrcBit(CrcBit(CrcBit(CrcBit(crc ^ (byte as bv32)))))))))
  }

  function CrcRegister(content: Bytes): bv32 {
    if content == [] then 0xFFFF_FFFF
    else CrcByte(CrcRegister(content[..|content| - 1]), content[|content| - 1])
  }

  /** CRC32C: what a stored object's descriptor carries besides size and generation. */
  function Crc32c(content: Bytes): bv32 {
    CrcRegister(content) ^ 0xFFFF_FFFF
  }

  predicate Matches(d: Descriptor, content: Bytes) {
    d.generation != 0 && d.size == |content| && d.crc32c == Crc32c(content)
  }

  datatype StoredObject = StoredObject(descriptor: Descriptor, content: Bytes)

  datatype Cloud = Cloud(bucket: Option<BucketState>, objects: map<string, StoredObject>, generation: nat)

  datatype Mutation =
    | CreateBucket(identity: BucketIdentity)
    | Upload(name: string, content: Bytes)
    | ConfigureLifecycle
    | ConfigureRetention(seconds: int)
    | LockRetention(expectedMetageneration: int)

  /** A new bucket in the exact compliant configuration. */
  function Compliant(identity: BucketIdentity): BucketState {
    BucketState(identity, true, "enforced", "STANDARD", true, 0, false, 0, false, 1)
  }

  predicate Permitted(c: Cloud, m: Mutation) {
    match m
    case CreateBucket(_) => c.bucket.None?
    case Upload(name, _) => c.bucket.Some? && name !in c.objects
    case ConfigureLifecycle => c.bucket.Some?
    case ConfigureRetention(_) => c.bucket.Some? && !c.bucket.value.retentionLocked
    case LockRetention(expected) => c.bucket.Some? && c.bucket.value.metageneration == expected
  }

  function Put(c: Cloud, name: string, content: Bytes): Cloud {
    var generation := c.generation + 1;
    c.(objects := c.objects[name := StoredObject(Descriptor(generation, |content|, Crc32c(content)), content)],
       generation := generation)
  }

  function Performed(c: Cloud, m: Mutation): Cloud
    requires Permitted(c, m)
  {
    match m
    case CreateBucket(identity) => c.(bucket := Some(Compliant(identity)), objects := map[])
    case Upload(name, content) => Put(c, name, content)
    case ConfigureLifecycle => Reconfigured(c, c.bucket.value.(archiveAfterDay := AUDIT_ARCHIVE_AFTER_DAYS))
    case ConfigureRetention(seconds) => Reconfigured(c, c.bucket.value.(retentionSeconds := seconds))
    case LockRetention(_) => Reconfigured(c, c.bucket.value.(retentionLocked := true))
  }

  function Reconfigured(c: Cloud, state: BucketState): Cloud {
    c.(bucket := Some(state.(metageneration := state.metageneration + 1)))
  }

  // ----- The sealed envelope and the local records -----

  datatype Phase =
    | EnvelopeSealed | AuditBucketClaimed | AuditBucketCreated | EnvelopeUploaded | JournalUploaded
    | LifecycleConfigured | HandoffVerified | RetentionConfigured | RetentionLockClaimed | RetentionLocked
    | ControlBucketClaimed | ControlBucketCreated

  function Order(p: Phase): nat {
    match p
    case EnvelopeSealed => 0 case AuditBucketClaimed => 1 case AuditBucketCreated => 2
    case EnvelopeUploaded => 3 case JournalUploaded => 4 case LifecycleConfigured => 5
    case HandoffVerified => 6 case RetentionConfigured => 7 case RetentionLockClaimed => 8
    case RetentionLocked => 9 case ControlBucketClaimed => 10 case ControlBucketCreated => 11
  }

  function PhaseText(p: Phase): string {
    match p
    case EnvelopeSealed => "envelope-sealed" case AuditBucketClaimed => "audit-bucket-create-claimed"
    case AuditBucketCreated => "audit-bucket-created" case EnvelopeUploaded => "envelope-uploaded"
    case JournalUploaded => "journal-uploaded" case LifecycleConfigured => "lifecycle-configured"
    case HandoffVerified => "handoff-verified" case RetentionConfigured => "retention-configured"
    case RetentionLockClaimed => "retention-lock-claimed" case RetentionLocked => "retention-locked"
    case ControlBucketClaimed => "control-bucket-create-claimed" case ControlBucketCreated => "control-bucket-created"
  }

  datatype Envelope = Envelope(
    operationID: string, environment: string, hash: string, bucket: BucketIdentity,
    envelopeJSON: Bytes, journalJSON: Bytes, journalFile: string,
    approvedAt: int, validUntil: int, createdAt: int, expiresAt: int)
  {
    function Base(): string { "operations/" + environment + "/" + operationID }
    function EnvelopeName(): string { Base() + "/bootstrap-envelope.json" }
    function JournalName(): string { Base() + "/steps/" + journalFile }

    predicate ValidAt(now: int) {
      now != 0 && approvedAt <= now < validUntil && createdAt <= now < expiresAt
    }
  }

  /** The two uploads never meet under one name. */
  lemma NamesDiffer(e: Envelope)
    ensures e.EnvelopeName() != e.JournalName()
  {
    var at := |e.Base()| + 1;
    assert e.EnvelopeName()[at] == 'b';
    assert e.JournalName()[at] == 's';
  }

  datatype HandoffRecord = HandoffRecord(
    operationID: string, envelopeHash: string, sequence: nat, phase: Phase, recordedAt: int,
    bucket: BucketIdentity, envelope: Option<Descriptor>, journal: Option<Descriptor>)

  function FileSuffix(p: Phase): string {
    "-" + PhaseText(p) + ".json"
  }

  function FileName(r: HandoffRecord): string {
    Padded(r.sequence, 20) + FileSuffix(r.phase)
  }

  /** What the reader checks of one record on its own. */
  predicate WellFormed(r: HandoffRecord) {
    && r.recordedAt != 0 && r.sequence != 0
    && (r.phase.EnvelopeUploaded? <==> r.envelope.Some?)
    && (r.phase.JournalUploaded? <==> r.journal.Some?)
    && (r.envelope.Some? ==> r.envelope.value.generation != 0)
    && (r.journal.Some? ==> r.journal.value.generation != 0)
  }

  /** What the reader checks of a record at position `i` of the chain. */
  predicate Chained(e: Envelope, records: seq<HandoffRecord>, i: nat)
    requires i < |records|
  {
    && WellFormed(records[i])
    && records[i].sequence == i + 1
    && records[i].operationID == e.operationID && records[i].envelopeHash == e.hash
    && records[i].bucket == e.bucket
    && (i > 0 ==> Order(records[i - 1].phase) < Order(records[i].phase) &&
                  records[i - 1].recordedAt <= records[i].recordedAt)
  }

  ghost predicate ValidChain(e: Envelope, records: seq<HandoffRecord>) {
    forall i :: 0 <= i < |records| ==> Chained(e, records, i)
  }

  predicate Reached(records: seq<HandoffRecord>, phase: Phase) {
    exists i :: 0 <= i < |records| && records[i].phase == phase
  }

  lemma {:induction false} PhasesIncrease(e: Envelope, records: seq<HandoffRecord>, i: nat, j: nat)
    requires ValidChain(e, records) && i < j < |records|
    ensures Order(records[i].phase) < Order(records[j].phase)
  {
    assert Chained(e, records, j);
    if i < j - 1 {
      PhasesIncrease(e, records, i, j - 1);
    }
  }

  /** Twelve phases bound the chain. */
  lemma {:induction false} ChainIsShort(e: Envelope, records: seq<HandoffRecord>)
    requires ValidChain(e, records)
    ensures |records| <= 12
    ensures forall i :: 0 <= i < |records| ==> i <= Order(records[i].phase)
  {
    if records != [] {
      var last := |records| - 1;
      assert ValidChain(e, records[..last]) by {
        forall i | 0 <= i < last ensures Chained(e, records[..last], i) { assert Chained(e, records, i); }
      }
      ChainIsShort(e, records[..last]);
      assert Chained(e, records, last);
      if last > 0 {
        assert records[..last][last - 1] == records[last - 1];
      }
      forall i | 0 <= i < last ensures i <= Order(records[i].phase) {
        assert records[..last][i] == records[i];
      }
    }
  }

  // ----- The record directory -----

  /** The directory that holds exactly the chain. */
  ghost predicate Holds(files: map<string, HandoffRecord>, records: seq<HandoffRecord>) {
    && (forall i :: 0 <= i < |records| ==> FileName(records[i]) in files && files[FileName(records[i])] == records[i])
    && (forall name :: name in files ==> exists i :: 0 <= i < |records| && FileName(records[i]) == name)
  }

  function NamesOf(records: seq<HandoffRecord>): seq<string> {
    seq(|records|, i requires 0 <= i < |records| => FileName(records[i]))
  }

  lemma {:induction false} Pow10Grows(a: nat, b: nat)
    requires a <= b
    ensures Pow10(a) <= Pow10(b)
  {
    if a < b {
      Pow10Grows(a, b - 1);
    }
  }

  lemma FileNamesOrdered(r: HandoffRecord, s: HandoffRecord)
    requires r.sequence < s.sequence < Pow10(20)
    ensures LexLess(FileName(r), FileName(s))
  {
    PaddedNamesOrdered(r.sequence, s.sequence, 20, FileSuffix(r.phase), FileSuffix(s.phase));
  }

  /** Zero-padded sequence numbers make file names sort in record order. */
  lemma NamesSort(e: Envelope, records: seq<HandoffRecord>)
    requires ValidChain(e, records)
    ensures StrictlySorted(NamesOf(records))
  {
    ChainIsShort(e, records);
    Pow10Grows(2, 20);
    assert Pow10(2) == 100;
    forall i, j | 0 <= i < j < |records| ensures LexLess(NamesOf(records)[i], NamesOf(records)[j]) {
      assert Chained(e, records, i) && Chained(e, records, j);
      FileNamesOrdered(records[i], records[j]);
    }
  }

  /** A sorted listing of the directory is the chain's own order. */
  lemma ListingIsTheChain(e: Envelope, files: map<string, HandoffRecord>, records: seq<HandoffRecord>,
                          names: seq<string>)
    requires ValidChain(e, records) && Holds(files, records)
    requires StrictlySorted(names) && forall name :: name in names <==> name in files
    ensures names == NamesOf(records)
  {
    NamesSort(e, records);
    forall name ensures name in names <==> name in NamesOf(records) {
      if name in files {
        var i :| 0 <= i < |records| && FileName(records[i]) == name;
        assert NamesOf(records)[i] == name;
      }
      if name in NamesOf(records) {
        var i :| 0 <= i < |NamesOf(records)| && NamesOf(records)[i] == name;
        assert FileName(records[i]) in files;
      }
    }
    SortedListingUnique(names, NamesOf(records));
  }

  lemma LongerChain(e: Envelope, records: seq<HandoffRecord>, r: HandoffRecord)
    requires ValidChain(e, records) && Chained(e, records + [r], |records|)
    ensures ValidChain(e, records + [r])
    ensures forall i :: 0 <= i < |records| ==> FileName(records[i]) != FileName(r)
  {
    var longer := records + [r];
    forall i | 0 <= i < |longer| ensures Chained(e, longer, i) {
      if i < |records| {
        assert Chained(e, records, i);
      }
    }
    NamesSort(e, longer);
    LexIrreflexive(FileName(r));
    forall i | 0 <= i < |records| ensures FileName(records[i]) != FileName(r) {
      assert LexLess(NamesOf(longer)[i], NamesOf(longer)[|records|]);
    }
  }

  /** Writing the next record under its own new name holds the longer chain. */
  lemma AppendHolds(e: Envelope, files: map<string, HandoffRecord>, records: seq<HandoffRecord>, r: HandoffRecord)
    requires ValidChain(e, records) && Holds(files, records) && Chained(e, records + [r], |records|)
    ensures FileName(r) !in files
    ensures Holds(files[FileName(r) := r], records + [r])
  {
    LongerChain(e, records, r);
    var longer, name' := records + [r], FileName(r);
    var files' := files[name' := r];
    forall i | 0 <= i < |longer|
      ensures FileName(longer[i]) in files' && files'[FileName(longer[i])] == longer[i]
    {
      if i < |records| {
        assert longer[i] == records[i];
      }
    }
    forall name | name in files' ensures exists i :: 0 <= i < |longer| && FileName(longer[i]) == name {
      if name == name' {
        assert FileName(longer[|records|]) == name;
      } else {
        var i :| 0 <= i < |records| && FileName(records[i]) == name;
        assert FileName(longer[i]) == name;
      }
    }
  }

  // ----- The six mutations of one handoff -----

  /** The provider mutations of one complete handoff, in order. */
  function Canonical(e: Envelope): (ms: seq<Mutation>)
    ensures |ms| == 6
  {
    [CreateBucket(e.bucket), Upload(e.EnvelopeName(), e.envelopeJSON), Upload(e.JournalName(), e.journalJSON),
     ConfigureLifecycle, ConfigureRetention(AUDIT_RETENTION_SECONDS), LockRetention(3)]
  }

  function EnvelopeObject(e: Envelope, base: nat): StoredObject {
    StoredObject(Descriptor(base + 1, |e.envelopeJSON|, Crc32c(e.envelopeJSON)), e.envelopeJSON)
  }

  function JournalObject(e: Envelope, base: nat): StoredObject {
    StoredObject(Descriptor(base + 2, |e.journalJSON|, Crc32c(e.journalJSON)), e.journalJSON)
  }

  /** The cloud after the first `k` mutations of an otherwise quiet provider
      whose generation counter stood at `base`. */
  function CloudAfter(e: Envelope, base: nat, k: nat): Cloud {
    Cloud(
      if k == 0 then None
      else Some(Compliant(e.bucket).(
                archiveAfterDay := if k >= 4 then AUDIT_ARCHIVE_AFTER_DAYS else 0,
                retentionSeconds := if k >= 5 then AUDIT_RETENTION_SECONDS else 0,
                retentionLocked := k >= 6,
                metageneration := if k <= 3 then 1 else k - 2)),
      if k < 2 then map[]
      else if k == 2 then map[e.EnvelopeName() := EnvelopeObject(e, base)]
      else map[e.EnvelopeName() := EnvelopeObject(e, base), e.JournalName() := JournalObject(e, base)],
      base + (if k < 2 then 0 else if k == 2 then 1 else 2))
  }

  lemma CanonicalStep(e: Envelope, base: nat, k: nat)
    requires k < 6
    ensures Permitted(CloudAfter(e, base, k), Canonical(e)[k])
    ensures Performed(CloudAfter(e, base, k), Canonical(e)[k]) == CloudAfter(e, base, k + 1)
  {
    NamesDiffer(e);
  }

  /** How many records and mutations a quiet provider can have been left with. */
  predicate Paired(n: nat, k: nat) {
    || (n <= 1 && k == 0) || (n == 2 && k <= 1) || (n == 3 && 1 <= k <= 2) || (n == 4 && 2 <= k <= 3)
    || (n == 5 && 3 <= k <= 4) || (n == 6 && k == 4) || (n == 7 && 4 <= k <= 5) || (n == 8 && k == 5)
    || (n == 9 && 5 <= k <= 6) || (n == 10 && k == 6)
  }

  /** What an observer finds after the first `k` mutations. */
  lemma QuietCloud(e: Envelope, base: nat, k: nat)
    requires k <= 6
    ensures var c := CloudAfter(e, base, k);
      && (c.bucket.Some? <==> 1 <= k)
      && (1 <= k ==> c.bucket.value == Compliant(e.bucket).(
            archiveAfterDay := if k >= 4 then AUDIT_ARCHIVE_AFTER_DAYS else 0,
            retentionSeconds := if k >= 5 then AUDIT_RETENTION_SECONDS else 0,
            retentionLocked := k >= 6, metageneration := if k <= 3 then 1 else k - 2))
      && (e.EnvelopeName() in c.objects <==> 2 <= k)
      && (2 <= k ==> c.objects[e.EnvelopeName()] == EnvelopeObject(e, base))
      && (e.JournalName() in c.objects <==> 3 <= k)
      && (3 <= k ==> c.objects[e.JournalName()] == JournalObject(e, base))
    ensures Matches(EnvelopeObject(e, base).descriptor, e.envelopeJSON)
    ensures Matches(JournalObject(e, base).descriptor, e.journalJSON)
  {
    NamesDiffer(e);
  }
}
