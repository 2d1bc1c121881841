/** The world one handoff runs in: provider, record directory and clock, each
    disturbed by a script of foreign writes, lost replies and crashes. */
module HandoffWorld {
  import opened Common
  import opened Text
  import opened AuditProvider

  datatype Event =
    | Recorded(record: HandoffRecord)
    | SawBucket(state: BucketState)
    | SawObject(name: string, stored: StoredObject)
    | Called(mutation: Mutation)
    | Opened

  datatype Reply = Done | PreconditionFailed | Failed

  /** How many events there are up to and including the last opening of a run. */
  ghost function LastOpening(log: seq<Event>): (n: nat)
    ensures n <= |log|
  {
    if log == [] then 0
    else if log[|log| - 1].Opened? then |log|
    else LastOpening(log[..|log| - 1])
  }

  /** Observed since the current run opened. */
  ghost predicate Observed(log: seq<Event>, event: Event) {
    event in log[LastOpening(log)..]
  }

  /** `after` continues the same run. */
  ghost predicate Grew(before: seq<Event>, after: seq<Event>) {
    before <= after && LastOpening(before) == LastOpening(after)
  }

  lemma ObservedStays(before: seq<Event>, after: seq<Event>, event: Event)
    requires Grew(before, after) && Observed(before, event)
    ensures Observed(after, event)
  {
    var n := LastOpening(before);
    var i :| 0 <= i < |before[n..]| && before[n..][i] == event;
    assert after[n..][i] == event;
  }

  /** Every call from position `n` on follows an opening from `n` on. */
  ghost predicate CallsInRun(log: seq<Event>, n: nat) {
    forall i :: n <= i < |log| && log[i].Called? ==> n < LastOpening(log[..i])
  }

  lemma {:induction false} OpeningsOnlyAdvance(log: seq<Event>, i: nat)
    requires i <= |log|
    ensures LastOpening(log[..i]) <= LastOpening(log)
  {
    if i == |log| {
      assert log[..i] == log;
    } else {
      assert log[..|log| - 1][..i] == log[..i];
      OpeningsOnlyAdvance(log[..|log| - 1], i);
    }
  }

  lemma RunIsOpened(before: seq<Event>, after: seq<Event>)
    requires before + [Opened] <= after
    ensures CallsInRun(after, |before|)
  {
    forall i | |before| <= i < |after| && after[i].Called? ensures |before| < LastOpening(after[..i]) {
      assert after[|before|] == Opened;
      var start := before + [Opened];
      assert after[..i][..|start|] == start;
      OpeningsOnlyAdvance(after[..i], |start|);
    }
  }

  ghost predicate RecordedPhase(log: seq<Event>, phase: Phase) {
    exists r: HandoffRecord :: Recorded(r) in log && r.phase == phase
  }

  /** In this run the named object was observed with the bytes and the very
      descriptor a durable record of any run carries. */
  ghost predicate SawRecordedEnvelope(e: Envelope, log: seq<Event>) {
    exists r: HandoffRecord, o: StoredObject ::
      Recorded(r) in log && Observed(log, SawObject(e.EnvelopeName(), o)) &&
      r.envelope == Some(o.descriptor) && o.content == e.envelopeJSON
  }

  ghost predicate SawRecordedJournal(e: Envelope, log: seq<Event>) {
    exists r: HandoffRecord, o: StoredObject ::
      Recorded(r) in log && Observed(log, SawObject(e.JournalName(), o)) &&
      r.journal == Some(o.descriptor) && o.content == e.journalJSON
  }

  ghost predicate SawRetention(log: seq<Event>, metageneration: int) {
    exists s: BucketState :: Observed(log, SawBucket(s)) && s.metageneration == metageneration &&
      s.retentionSeconds == AUDIT_RETENTION_SECONDS && !s.retentionLocked
  }

  ghost predicate SawLocked(log: seq<Event>) {
    exists s: BucketState :: Observed(log, SawBucket(s)) && s.retentionLocked && s.retentionSeconds == AUDIT_RETENTION_SECONDS
  }

  /** Everything that must precede the irreversible call: three durable phases,
      and what the very run that makes the call has observed. */
  ghost predicate Justified(e: Envelope, log: seq<Event>, metageneration: int) {
    && RecordedPhase(log, HandoffVerified)
    && RecordedPhase(log, RetentionConfigured)
    && RecordedPhase(log, RetentionLockClaimed)
    && SawRecordedEnvelope(e, log)
    && SawRecordedJournal(e, log)
    && SawRetention(log, metageneration)
  }

  ghost predicate Allowed(e: Envelope, before: seq<Event>, event: Event) {
    match event
    case Called(m) => m.LockRetention? ==> Justified(e, before, m.expectedMetageneration)
    case Recorded(r) => r.phase.RetentionLocked? ==> SawLocked(before)
    case _ => true
  }

  /** In event order, every irreversible call was justified by what came before
      it and every retention-locked record followed an observed 365-day lock. */
  ghost predicate SafeLog(e: Envelope, log: seq<Event>) {
    forall i :: 0 <= i < |log| ==> Allowed(e, log[..i], log[i])
  }

  lemma SafeAppend(e: Envelope, log: seq<Event>, event: Event)
    requires SafeLog(e, log) && Allowed(e, log, event)
    ensures SafeLog(e, log + [event])
    ensures !event.Opened? ==> Grew(log, log + [event]) && Observed(log + [event], event)
  {
    var longer := log + [event];
    forall i | 0 <= i < |longer| ensures Allowed(e, longer[..i], longer[i]) {
      if i < |log| {
        assert longer[..i] == log[..i];
      } else {
        assert longer[..i] == log;
      }
    }
    assert longer[..|log|] == log;
    assert longer[LastOpening(log)..] == log[LastOpening(log)..] + [event];
  }

  /** What a quiet provider's handoff has recorded so far. */
  predicate Expected(e: Envelope, base: nat, chain: seq<HandoffRecord>) {
    forall i :: 0 <= i < |chain| ==> NextExpected(e, base, i, chain[i])
  }

  lemma ExpectedOneMore(e: Envelope, base: nat, chain: seq<HandoffRecord>, r: HandoffRecord)
    requires Expected(e, base, chain) && NextExpected(e, base, |chain|, r)
    ensures Expected(e, base, chain + [r])
  {
    hide NextExpected;
  }

  /** The logged records are the chain's. */
  ghost predicate Logged(chain: seq<HandoffRecord>, log: seq<Event>) {
    forall r: HandoffRecord :: r in chain <==> Recorded(r) in log
  }

  lemma LoggedOneMore(chain: seq<HandoffRecord>, log: seq<Event>, r: HandoffRecord)
    requires Logged(chain, log)
    ensures Logged(chain + [r], log + [Recorded(r)])
  {
  }

  lemma ExpectedReached(e: Envelope, base: nat, chain: seq<HandoffRecord>, phase: Phase)
    requires Expected(e, base, chain)
    ensures Reached(chain, phase) <==> Order(phase) < |chain|
  {
    if Order(phase) < |chain| {
      assert NextExpected(e, base, Order(phase), chain[Order(phase)]);
    }
  }

  /** The record a quiet provider's handoff writes next. */
  predicate NextExpected(e: Envelope, base: nat, n: nat, r: HandoffRecord) {
    && Order(r.phase) == n
    && r.envelope == (if n == 3 then Some(EnvelopeObject(e, base).descriptor) else None)
    && r.journal == (if n == 4 then Some(JournalObject(e, base).descriptor) else None)
  }

  class World {
    ghost const base: nat
    var cloud: Cloud
    var envelope: Option<Envelope>
    var files: map<string, HandoffRecord>
    var script: seq<Disturbance<Cloud>>
    var now: int
    var ticks: seq<int>
    ghost var chain: seq<HandoffRecord>
    ghost var effects: seq<Mutation>
    ghost var log: seq<Event>

    /** An untouched provider and an empty state directory. */
    constructor (generation: nat)
      ensures Valid() && envelope.None? && base == generation
      ensures cloud == Cloud(None, map[], generation) && script == [] && ticks == []
    {
      base := generation;
      cloud := Cloud(None, map[], generation);
      envelope, files, script, now, ticks := None, map[], [], 0, [];
      chain, effects, log := [], [], [];
    }

    ghost predicate Valid()
      reads this
    {
      match envelope
      case None => chain == [] && files == map[] && log == [] && effects == []
      case Some(e) =>
        && ValidChain(e, chain)
        && Holds(files, chain)
        && SafeLog(e, log)
        && Logged(chain, log)
    }

    ghost predicate Quiet()
      reads `script
    {
      forall i :: 0 <= i < |script| ==> script[i].foreign.None?
    }

    ghost predicate Calm()
      reads `script
    {
      forall i :: 0 <= i < |script| ==> script[i] == Disturbance(None, Clean)
    }

    /** The clock keeps inside the approval window and never moves back. */
    ghost predicate Steady(e: Envelope)
      reads `now, `ticks, `chain
    {
      && e.ValidAt(now)
      && (chain != [] ==> chain[|chain| - 1].recordedAt <= now)
      && (forall i :: 0 <= i < |ticks| ==> e.ValidAt(ticks[i]) && now <= ticks[i])
      && (forall i, j :: 0 <= i < j < |ticks| ==> ticks[i] <= ticks[j])
    }

    ghost predicate Serene(e: Envelope)
      reads `script, `now, `ticks, `chain
    {
      Calm() && Steady(e)
    }

    /** What this engine alone, however often it crashed, can have left behind. */
    ghost predicate Resumable(e: Envelope)
      reads `envelope, `chain, `effects, `cloud
    {
      && (envelope.Some? ==> envelope.value == e)
      && (envelope.None? ==> chain == [])
      && |effects| <= 6
      && effects == Canonical(e)[..|effects|]
      && cloud == CloudAfter(e, base, |effects|)
      && Paired(|chain|, |effects|)
      && Expected(e, base, chain)
    }

    ghost predicate Undisturbed(e: Envelope)
      reads `envelope, `chain, `effects, `cloud, `script
    {
      Resumable(e) && Quiet()
    }

    /** A bucket was created and the process died before recording it. */
    ghost predicate Orphaned()
      reads `chain, `effects
    {
      |chain| == 2 && |effects| == 1
    }

    method Turn() returns (fault: Fault)
      modifies this`script, this`cloud
      ensures old(Quiet()) ==> Quiet() && cloud == old(cloud)
      ensures old(Calm()) ==> Calm() && fault.Clean?
    {
      if script == [] {
        return Clean;
      }
      var head := script[0];
      script := script[1..];
      if head.foreign.Some? {
        cloud := head.foreign.value;
      }
      return head.fault;
    }

    method Now() returns (t: int)
      modifies this`now, this`ticks
      ensures t == now
      ensures forall e: Envelope :: old(Steady(e)) ==> Steady(e) && old(now) <= t
    {
      if ticks != [] {
        now, ticks := ticks[0], ticks[1..];
      }
      return now;
    }

    /** A new run takes up the stored envelope. */
    ghost method Begin()
      requires Valid() && envelope.Some?
      modifies this`log
      ensures Valid() && log == old(log) + [Opened]
    {
      SafeAppend(envelope.value, log, Opened);
      log := log + [Opened];
    }

    method DescribeBucket() returns (ok: bool, state: Option<BucketState>)
      requires Valid() && envelope.Some?
      modifies this`script, this`cloud, this`log
      ensures Valid() && Grew(old(log), log)
      ensures ok ==> state == cloud.bucket
      ensures ok && state.Some? ==> Observed(log, SawBucket(state.value))
      ensures old(Quiet()) ==> Quiet() && cloud == old(cloud)
      ensures old(Calm()) ==> Calm() && ok
    {
      var fault := Turn();
      state := cloud.bucket;
      ok := fault.Clean?;
      if ok && state.Some? {
        SafeAppend(envelope.value, log, SawBucket(state.value));
        log := log + [SawBucket(state.value)];
      }
    }

    method DescribeObject(name: string) returns (ok: bool, descriptor: Option<Descriptor>)
      modifies this`script, this`cloud
      ensures ok ==> descriptor == if name in cloud.objects then Some(cloud.objects[name].descriptor) else None
      ensures old(Quiet()) ==> Quiet() && cloud == old(cloud)
      ensures old(Calm()) ==> Calm() && ok
    {
      var fault := Turn();
      ok := fault.Clean?;
      descriptor := if name in cloud.objects then Some(cloud.objects[name].descriptor) else None;
    }

    method ReadObject(name: string) returns (ok: bool, stored: Option<StoredObject>)
      requires Valid() && envelope.Some?
      modifies this`script, this`cloud, this`log
      ensures Valid() && Grew(old(log), log)
      ensures ok ==> stored == if name in cloud.objects then Some(cloud.objects[name]) else None
      ensures ok && stored.Some? ==> Observed(log, SawObject(name, stored.value))
      ensures old(Quiet()) ==> Quiet() && cloud == old(cloud)
      ensures old(Calm()) ==> Calm() && ok
    {
      var fault := Turn();
      ok := fault.Clean?;
      stored := if name in cloud.objects then Some(cloud.objects[name]) else None;
      if ok && stored.Some? {
        SafeAppend(envelope.value, log, SawObject(name, stored.value));
        log := log + [SawObject(name, stored.value)];
      }
    }

    /** One provider write. `met` is the state the provider acted on. */
    method Mutate(m: Mutation) returns (reply: Reply, ghost met: Cloud)
      requires Valid() && envelope.Some?
      requires m.LockRetention? ==> Justified(envelope.value, log, m.expectedMetageneration)
      modifies this`script, this`cloud, this`log, this`effects
      ensures Valid() && Grew(old(log), log)
      ensures old(Quiet()) ==> Quiet() && met == old(cloud)
      ensures || (effects == old(effects) && cloud == met && !reply.Done?)
              || (Permitted(met, m) && cloud == Performed(met, m) && effects == old(effects) + [m] &&
                  !reply.PreconditionFailed?)
      ensures old(Calm()) ==> Calm() && (reply.Done? <==> Permitted(met, m))
      ensures old(Calm()) && !Permitted(met, m) && m.Upload? && met.bucket.Some? ==> reply.PreconditionFailed?
    {
      hide World.Resumable, Performed;
      var fault := Turn();
      met := cloud;
      SafeAppend(envelope.value, log, Called(m));
      log := log + [Called(m)];
      if fault.LostBefore? {
        return Failed, met;
      }
      if !Permitted(cloud, m) {
        if fault.Clean? && m.Upload? && cloud.bucket.Some? {
          return PreconditionFailed, met;
        }
        return Failed, met;
      }
      cloud := Performed(cloud, m);
      effects := effects + [m];
      return if fault.LostAfter? then Failed else Done, met;
    }

    /** Exclusive publication of the sealed envelope. */
    method WriteEnvelope(e: Envelope) returns (ok: bool)
      requires Valid()
      modifies this`script, this`cloud, this`envelope
      ensures Valid()
      ensures envelope == old(envelope) || (old(envelope).None? && envelope == Some(e))
      ensures ok ==> old(envelope).None? && envelope == Some(e)
      ensures old(Quiet()) ==> Quiet() && cloud == old(cloud)
      ensures old(Calm()) ==> Calm() && (old(envelope).None? ==> ok)
    {
      var fault := Turn();
      if fault.LostBefore? || envelope.Some? {
        return false;
      }
      envelope := Some(e);
      return fault.Clean?;
    }

    /** The file appears, and with it the record in the chain and in the log. */
    method Publish(r: HandoffRecord)
      requires Valid() && envelope.Some? && FileName(r) !in files
      requires Chained(envelope.value, chain + [r], |chain|)
      requires r.phase.RetentionLocked? ==> SawLocked(log)
      modifies this`files, this`chain, this`log
      ensures Valid() && Grew(old(log), log) && chain == old(chain) + [r]
    {
      hide FileName, Chained, Holds, SafeLog, SawLocked, LastOpening, Observed, Logged, ValidChain;
      AppendHolds(envelope.value, files, chain, r);
      LongerChain(envelope.value, chain, r);
      LoggedOneMore(chain, log, r);
      SafeAppend(envelope.value, log, Recorded(r));
      files := files[FileName(r) := r];
      chain := chain + [r];
      log := log + [Recorded(r)];
    }

    /** Exclusive publication of the next record file. */
    method WriteRecord(r: HandoffRecord) returns (ok: bool)
      requires Valid() && envelope.Some?
      requires Chained(envelope.value, chain + [r], |chain|)
      requires r.phase.RetentionLocked? ==> SawLocked(log)
      modifies this`script, this`cloud, this`files, this`chain, this`log
      ensures Valid() && Grew(old(log), log)
      ensures chain == old(chain) || chain == old(chain) + [r]
      ensures ok ==> chain == old(chain) + [r]
      ensures old(Quiet()) ==> Quiet() && cloud == old(cloud)
      ensures old(Calm()) ==> Calm() && ok
      ensures var e := envelope.value;
              (old(Undisturbed(e)) && NextExpected(e, base, |old(chain)|, r) && Paired(|old(chain)| + 1, |effects|))
              ==> Undisturbed(e)
      ensures old(Serene(envelope.value)) && r.recordedAt <= now ==> Serene(envelope.value)
    {
      hide FileName, Canonical, CloudAfter, Chained, Allowed, NextExpected, Paired, Holds, SafeLog, SawLocked, LastOpening,
        Observed, Logged, Expected, ValidChain;
      var fault := Turn();
      NextIsNew(r);
      if fault.LostBefore? || FileName(r) in files {
        return false;
      }
      if Expected(envelope.value, base, chain) && NextExpected(envelope.value, base, |chain|, r) {
        ExpectedOneMore(envelope.value, base, chain, r);
      }
      Publish(r);
      return fault.Clean?;
    }

    /** No file carries the next record's name. */
    lemma NextIsNew(r: HandoffRecord)
      requires Valid() && envelope.Some? && Chained(envelope.value, chain + [r], |chain|)
      ensures FileName(r) !in files
    {
      hide FileName, Chained, SafeLog, Logged, ValidChain, Holds;
      AppendHolds(envelope.value, files, chain, r);
    }

    /** The sorted listing of the record directory. */
    method ListNames() returns (names: seq<string>)
      ensures StrictlySorted(names) && forall name :: name in names <==> name in files
    {
      names := [];
      var rest := files.Keys;
      while rest != {}
        invariant rest <= files.Keys
        invariant StrictlySorted(names) && forall name :: name in names <==> name in files && name !in rest
        invariant forall i, name :: 0 <= i < |names| && name in rest ==> LexLess(names[i], name)
        decreases rest
      {
        var least := Least(rest);
        names := names + [least];
        rest := rest - {least};
      }
    }
  }

  method Least(names: set<string>) returns (least: string)
    requires names != {}
    ensures least in names && forall name :: name in names && name != least ==> LexLess(least, name)
  {
    least :| least in names;
    var rest := names - {least};
    while rest != {}
      invariant least in names && rest <= names && least !in rest
      invariant forall name :: name in names && name !in rest && name != least ==> LexLess(least, name)
      decreases rest
    {
      var next :| next in rest;
      rest := rest - {next};
      LexTotal(least, next);
      if LexLess(next, least) {
        forall name | name in names && name !in rest && name != next ensures LexLess(next, name) {
          if name != least {
            LexTransitive(next, least, name);
          }
        }
        least := next;
      }
    }
  }
}
