/** What every accepted history keeps. */
module JournalProperties {
  import opened Common
  import opened Text
  import opened Operation
  import opened Journal

  /** An entry after which a mutation may have happened. */
  ghost predicate MayMutate(e: JournalEntry) {
    || (e.kind.Step? && e.step.Some? && StepMayMutate(e.step.value))
    || (e.pause.Some? && e.pause.value.mutationOccurred)
    || (e.kind.CancellationRequest? && e.cancellation.Some? && !e.cancellation.value.mutationObservation.NotOccurred?)
  }

  ghost predicate AnyMayMutate(entries: seq<JournalEntry>) {
    exists i :: 0 <= i < |entries| && MayMutate(entries[i])
  }

  ghost predicate AnyRequest(entries: seq<JournalEntry>) {
    exists i :: 0 <= i < |entries| && entries[i].kind.CancellationRequest?
  }

  /** Where an operation is once its cancellation route was taken. */
  ghost predicate PastCancellation(state: OperationState) {
    state.Cancelled? || state.Rollback? || state.VerifiedRollback? || state.FailedCleanup?
  }

  ghost predicate Sound(f: Fold) {
    && (f.pending.Some? ==>
          && f.machine.Some?
          && RouteReachable(f.machine.value, f.pending.value)
          && f.pending.value == CancellationTarget(f.mutation))
    && (f.machine == Some(Paused) ==> f.paused.Some?)
    && (f.machine.None? ==> f == BLANK)
    && (f.machine.Some? ==> !f.previousTime.IsZero())
  }

  lemma RequestIsSound(f: Fold, e: JournalEntry)
    requires Sound(f) && ValidEntry(e) && e.kind.CancellationRequest? && AdvanceRequest(f, e).Some?
    ensures Sound(AdvanceRequest(f, e).value)
    ensures AdvanceRequest(f, e).value.mutation <==> f.mutation || MayMutate(e)
  {
  }

  /** PROTECT and EXECUTE both step straight to either cancellation route, so
      neither lets a pause through while one is pending. */
  lemma PauseIsNotPending(f: Fold, e: JournalEntry)
    requires Sound(f) && ValidEntry(e) && e.kind.Transition? && f.machine.Some? && MayLeave(f, e)
    ensures e.pause.Some? ==> f.pending.None?
  {
    if e.pause.Some? && f.pending.Some? {
      assert CanTransition(f.machine.value, Paused);
      assert CanTransition(f.machine.value, f.pending.value);
      assert false;
    }
  }

  lemma TransitionIsSound(f: Fold, e: JournalEntry)
    requires Sound(f) && ValidEntry(e) && e.kind.Transition? && AdvanceTransition(f, e).Some?
    ensures Sound(AdvanceTransition(f, e).value)
    ensures AdvanceTransition(f, e).value.mutation <==> f.mutation || MayMutate(e)
    ensures e.pause.Some? ==> f.pending.None?
  {
    var g := AdvanceTransition(f, e).value;
    if f.machine.Some? {
      PauseIsNotPending(f, e);
      if e.pause.Some? {
        assert g.pending.None?;
      } else {
        assert g.mutation == f.mutation;
      }
    }
  }

  lemma StepIsSound(f: Fold, e: JournalEntry)
    requires Sound(f) && ValidEntry(e) && e.kind.Step? && AdvanceStep(f, e).Some?
    ensures Sound(AdvanceStep(f, e).value)
    ensures AdvanceStep(f, e).value.mutation <==> f.mutation || MayMutate(e)
  {
    ReachabilityTable(e.operationState);
  }

  lemma SoundStep(f: Fold, first: JournalEntry, index: nat, e: JournalEntry)
    requires Sound(f) && Advance(f, first, index, e).Some?
    ensures Sound(Advance(f, first, index, e).value)
    ensures Advance(f, first, index, e).value.machine == Some(e.operationState)
    ensures Advance(f, first, index, e).value.previousTime == e.recordedAt
    ensures Advance(f, first, index, e).value.mutation <==> f.mutation || MayMutate(e)
    ensures e.pause.Some? ==> f.pending.None?
  {
    match e.kind
    case CancellationRequest => RequestIsSound(f, e);
    case Transition => TransitionIsSound(f, e);
    case Step => StepIsSound(f, e);
  }

  lemma AnyMayMutateLast(entries: seq<JournalEntry>)
    requires entries != []
    ensures AnyMayMutate(entries) <==>
            AnyMayMutate(entries[..|entries| - 1]) || MayMutate(entries[|entries| - 1])
  {
    var before := entries[..|entries| - 1];
    forall i | 0 <= i < |before| ensures before[i] == entries[i] {}
    if AnyMayMutate(before) {
      var i :| 0 <= i < |before| && MayMutate(before[i]);
      assert MayMutate(entries[i]);
    }
  }

  /** The state a replay reaches, read off the entries alone. */
  lemma {:induction false} ReplayState(entries: seq<JournalEntry>)
    requires Replay(entries).Some?
    ensures Sound(Replay(entries).value)
    ensures entries != [] ==> Replay(entries).value.machine == Some(entries[|entries| - 1].operationState)
    ensures entries != [] ==> Replay(entries).value.previousTime == entries[|entries| - 1].recordedAt
    ensures Replay(entries).value.mutation <==> AnyMayMutate(entries)
  {
    if entries != [] {
      var last := |entries| - 1;
      ReplayState(entries[..last]);
      SoundStep(Replay(entries[..last]).value, entries[0], last, entries[last]);
      AnyMayMutateLast(entries);
    }
  }

  /** What the validator holds after the first `k` entries of an accepted history. */
  ghost function Held(entries: seq<JournalEntry>, k: nat): Fold
    requires Accepted(entries) && k <= |entries|
  {
    PrefixAccepted(entries, k);
    Replay(entries[..k]).value
  }

  /** Every non-empty prefix of an accepted history is accepted and ends in the
      state its last entry names. */
  lemma AcceptedPrefix(entries: seq<JournalEntry>, k: nat)
    requires Accepted(entries) && 0 < k <= |entries|
    ensures Accepted(entries[..k])
    ensures Replay(entries[..k]).value.machine == Some(entries[k - 1].operationState)
  {
    PrefixAccepted(entries, k);
    ReplayState(entries[..k]);
  }

  /** The step of the fold that entry `k` of an accepted history performs. */
  lemma AcceptedStep(entries: seq<JournalEntry>, k: nat)
    requires Accepted(entries) && k < |entries|
    ensures Replay(entries[..k]).Some? && Sound(Replay(entries[..k]).value)
    ensures Replay(entries[..k + 1]) == Advance(Replay(entries[..k]).value, entries[0], k, entries[k])
    ensures Replay(entries[..k + 1]).Some?
  {
    PrefixAccepted(entries, k);
    PrefixAccepted(entries, k + 1);
    ReplayState(entries[..k]);
    ReplayStep(entries, k);
  }

  /** No pause is recorded while a cancellation is pending. */
  lemma NoPauseWhilePending(entries: seq<JournalEntry>, k: nat)
    requires Accepted(entries) && k < |entries| && entries[k].pause.Some?
    ensures Held(entries, k).pending.None?
  {
    AcceptedStep(entries, k);
    SoundStep(Replay(entries[..k]).value, entries[0], k, entries[k]);
  }

  /** While a cancellation is pending its route stays reachable, and the route is
      CANCELLED exactly when no entry so far may have mutated. */
  lemma PendingRoute(entries: seq<JournalEntry>, k: nat)
    requires Accepted(entries) && 0 < k <= |entries| && Held(entries, k).pending.Some?
    ensures RouteReachable(entries[k - 1].operationState, Held(entries, k).pending.value)
    ensures Held(entries, k).pending.value in {Cancelled, Rollback}
    ensures Held(entries, k).pending.value.Cancelled? <==> !AnyMayMutate(entries[..k])
  {
    PrefixAccepted(entries, k);
    ReplayState(entries[..k]);
  }

  lemma RequestStep(f: Fold, first: JournalEntry, index: nat, e: JournalEntry)
    requires Sound(f) && Advance(f, first, index, e).Some?
    ensures f.pending.Some? ==>
              Advance(f, first, index, e).value.pending.Some? || PastCancellation(e.operationState)
    ensures f.machine.Some? && PastCancellation(f.machine.value) ==>
              PastCancellation(e.operationState) && !e.kind.CancellationRequest?
    ensures e.kind.CancellationRequest? ==> f.pending.None? && Advance(f, first, index, e).value.pending.Some?
    ensures f.pending.None? && !e.kind.CancellationRequest? ==> Advance(f, first, index, e).value.pending.None?
  {
    ReachabilityTable(e.operationState);
  }

  /** After a request the cancellation is pending until its route is taken, and never before one. */
  lemma {:induction false} RequestPendingUntilTaken(entries: seq<JournalEntry>)
    requires Replay(entries).Some?
    ensures AnyRequest(entries) ==>
              Replay(entries).value.pending.Some? || PastCancellation(entries[|entries| - 1].operationState)
    ensures !AnyRequest(entries) ==> Replay(entries).value.pending.None?
  {
    if entries != [] {
      var last := |entries| - 1;
      var before := entries[..last];
      RequestPendingUntilTaken(before);
      ReplayState(before);
      RequestStep(Replay(before).value, entries[0], last, entries[last]);
      if entries[last].kind.CancellationRequest? {
        assert AnyRequest(entries);
      }
      if AnyRequest(entries) && !entries[last].kind.CancellationRequest? {
        var i :| 0 <= i < |entries| && entries[i].kind.CancellationRequest?;
        assert before[i].kind.CancellationRequest?;
      }
      if AnyRequest(before) {
        var i :| 0 <= i < |before| && before[i].kind.CancellationRequest?;
        assert entries[i].kind.CancellationRequest?;
      }
    }
  }

  /** An accepted history holds at most one cancellation request. */
  lemma AtMostOneRequest(entries: seq<JournalEntry>, i: nat, j: nat)
    requires Accepted(entries) && i < |entries| && j < |entries|
    requires entries[i].kind.CancellationRequest? && entries[j].kind.CancellationRequest?
    ensures i == j
  {
    if i < j {
      SecondRequestRefused(entries, i, j);
    } else if j < i {
      SecondRequestRefused(entries, j, i);
    }
  }

  lemma SecondRequestRefused(entries: seq<JournalEntry>, i: nat, j: nat)
    requires Accepted(entries) && i < j < |entries|
    ensures !(entries[i].kind.CancellationRequest? && entries[j].kind.CancellationRequest?)
  {
    AcceptedStep(entries, j);
    AcceptedPrefix(entries, j);
    RequestPendingUntilTaken(entries[..j]);
    RequestStep(Replay(entries[..j]).value, entries[0], j, entries[j]);
    assert entries[..j][i] == entries[i];
  }

  /** Once requested, a cancellation confines how the operation can end. */
  lemma RequestConfinesTheEnd(entries: seq<JournalEntry>)
    requires Accepted(entries) && AnyRequest(entries)
    requires entries[|entries| - 1].operationState.Terminal()
    ensures entries[|entries| - 1].operationState in {Cancelled, VerifiedRollback, FailedCleanup}
  {
    ReplayState(entries);
    RequestPendingUntilTaken(entries);
    ReachabilityTable(entries[|entries| - 1].operationState);
  }

  /** CANCELLED is never recorded after an entry that may have mutated. */
  lemma CancelledMeansUntouched(entries: seq<JournalEntry>, i: nat, j: nat)
    requires Accepted(entries) && i < j < |entries|
    requires entries[j].kind.Transition? && entries[j].operationState.Cancelled?
    ensures !MayMutate(entries[i])
  {
    AcceptedStep(entries, j);
    ReplayState(entries[..j]);
    assert entries[..j][i] == entries[i];
  }

  /** Nothing follows a terminal state. */
  lemma TerminalIsLast(entries: seq<JournalEntry>, i: nat)
    requires Accepted(entries) && i < |entries| && entries[i].operationState.Terminal()
    ensures i == |entries| - 1
  {
    if i < |entries| - 1 {
      AcceptedStep(entries, i + 1);
      AcceptedPrefix(entries, i + 1);
    }
  }

  /** Recorded times never move backwards. */
  lemma {:induction false} TimesOrdered(entries: seq<JournalEntry>, i: nat, j: nat)
    requires Accepted(entries) && i <= j < |entries|
    ensures entries[i].recordedAt.instant <= entries[j].recordedAt.instant
    decreases j
  {
    if i < j {
      TimesOrdered(entries, i, j - 1);
      AcceptedStep(entries, j);
      AcceptedPrefix(entries, j);
      ReplayState(entries[..j]);
    }
  }

  // ----- Attempts -----

  function StepRuns(entries: seq<JournalEntry>, id: string): nat {
    if entries == [] then 0
    else
      var e := entries[|entries| - 1];
      StepRuns(entries[..|entries| - 1], id) + if e.kind.Step? && e.step.Some? && e.step.value.id == id then 1 else 0
  }

  predicate Finishes(e: JournalEntry, id: string) {
    e.kind.Step? && e.step.Some? && e.step.value.id == id && e.step.value.outcome.StepDone?
  }

  ghost predicate Finished(entries: seq<JournalEntry>, id: string) {
    exists i :: 0 <= i < |entries| && Finishes(entries[i], id)
  }

  lemma FinishedLast(entries: seq<JournalEntry>, id: string)
    requires entries != []
    ensures Finished(entries, id) <==>
            Finished(entries[..|entries| - 1], id) || Finishes(entries[|entries| - 1], id)
  {
    var before := entries[..|entries| - 1];
    forall i | 0 <= i < |before| ensures before[i] == entries[i] {}
    if Finished(before, id) {
      var i :| 0 <= i < |before| && Finishes(before[i], id);
      assert Finishes(entries[i], id);
    }
  }

  lemma CountStep(f: Fold, first: JournalEntry, index: nat, e: JournalEntry, id: string)
    requires Advance(f, first, index, e).Some?
    ensures id in Advance(f, first, index, e).value.completed <==> id in f.completed || Finishes(e, id)
    ensures Attempts(Advance(f, first, index, e).value.attempts, id) ==
            Attempts(f.attempts, id) + if e.kind.Step? && e.step.Some? && e.step.value.id == id then 1 else 0
  {
  }

  lemma {:induction false} AttemptsCount(entries: seq<JournalEntry>, id: string)
    requires Replay(entries).Some?
    ensures Attempts(Replay(entries).value.attempts, id) == StepRuns(entries, id)
    ensures id in Replay(entries).value.completed <==> Finished(entries, id)
  {
    if entries != [] {
      var last := |entries| - 1;
      AttemptsCount(entries[..last], id);
      FinishedLast(entries, id);
      CountStep(Replay(entries[..last]).value, entries[0], last, entries[last], id);
    }
  }

  /** Attempts of one step are numbered 1, 2, 3, ... without a gap, and a step
      that reported DONE is never attempted again. */
  lemma AttemptsContiguous(entries: seq<JournalEntry>, k: nat)
    requires Accepted(entries) && k < |entries| && entries[k].kind.Step?
    ensures entries[k].step.Some?
    ensures entries[k].step.value.attempt == StepRuns(entries[..k], entries[k].step.value.id) + 1
    ensures !Finished(entries[..k], entries[k].step.value.id)
  {
    hide AdvanceRequest, AdvanceTransition, Replay, Accepted, StepRuns;
    AcceptedStep(entries, k);
    AttemptsCount(entries[..k], entries[k].step.value.id);
  }

  // ----- Object names -----

  lemma Pow10At20()
    ensures TWO_TO_64 < Pow10(20)
  {
    assert Pow10(5) == 100_000;
    assert Pow10(10) == 100_000 * Pow10(5);
    assert Pow10(15) == 100_000 * Pow10(10);
    assert Pow10(20) == 100_000 * Pow10(15);
  }

  lemma NumberedFromOne(entries: seq<JournalEntry>, k: nat)
    requires Accepted(entries) && |entries| < TWO_TO_64 && k < |entries|
    ensures entries[k].sequence == k + 1
  {
    AcceptedStep(entries, k);
  }

  lemma NameStartsWithSequence(entry: JournalEntry, name: string)
    requires JournalObjectName(entry) == Some(name)
    ensures |name| >= 20 && name == Padded(entry.sequence, 20) + name[20..]
  {
    hide ValidEntry, Padded, StateSlug;
  }

  /** Object names of an accepted history sort in entry order, so a sorted
      listing reads the history back in order. */
  lemma ObjectNamesSort(entries: seq<JournalEntry>, names: seq<string>)
    requires Accepted(entries) && |entries| < TWO_TO_64
    requires |names| == |entries|
    requires forall i :: 0 <= i < |entries| ==> JournalObjectName(entries[i]) == Some(names[i])
    ensures StrictlySorted(names)
  {
    hide Accepted, LexLess, Padded, Pow10, JournalObjectName;
    Pow10At20();
    forall i, j | 0 <= i < j < |names| ensures LexLess(names[i], names[j]) {
      NumberedFromOne(entries, i);
      NumberedFromOne(entries, j);
      NameStartsWithSequence(entries[i], names[i]);
      NameStartsWithSequence(entries[j], names[j]);
      PaddedMonotone(i + 1, j + 1, 20);
      LexHeadDecides(Padded(i + 1, 20), Padded(j + 1, 20), names[i][20..], names[j][20..]);
    }
  }
}
