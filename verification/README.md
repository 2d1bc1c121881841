# CtrlDB control-plane verification

CtrlDB is a safety-first control plane for a managed database. Most of its code is protocol logic without I/O:
a journaled workflow that may be cancelled, a hand-over of audit records to a bucket that is then locked for good, a
generation-preconditioned object store, a guard that authorises and then revalidates a mutation, a network step that
can be compensated, a gate in front of every executor, a test-harness state machine and an import-graph check. This
project models that logic in Dafny and proves what it is for.

Code that works step by step (loops over journals, sessions that grow records, an object store, a provider being
changed) is modelled by methods and classes, each proved against a specification; the promises are then proved of the
specification. Pure checks are functions and predicates.

| files | what they model |
|---|---|
| `Common.dfy`, `Collections.dfy` | instants, identifiers, text order; sorting into a canonical order, distinct keys, counting |
| `Machine.dfy`, `Journal.dfy`, `JournalProperties.dfy` | transition table, journal validator, what every accepted journal keeps |
| `Contracts.dfy` | the trusted definition of a workflow's steps |
| `Cancellation.dfy`, `CancellationProperties.dfy` | cancellation controller, its two independent refolds of the journal, one-shot capabilities |
| `AuditProvider.dfy`, `HandoffWorld.dfy`, `Handoff.dfy`, `HandoffRuns.dfy` | audit bucket, record chain, crashes and foreign writers, the handoff and whole histories of it |
| `ControlStore.dfy`, `ControlBucket.dfy` | object store with generations, lock round trip, control bucket step, bucket bindings |
| `Cidr.dfy`, `Evidence.dfy`, `Capacity.dfy`, `Firewall.dfy`, `FirewallProof.dfy`, `Guard.dfy`, `PreMutation.dfy`, `PreMutationProperties.dfy`, `PreMutationExample.dfy` | the pre-mutation guard, with evidence it accepts |
| `Network.dfy` | create and compensate a network step against a provider with incarnations |
| `ExecutionGate.dfy`, `ExecutionBlockers.dfy`, `ExecutionExample.dfy` | plan structure, execution contract, evidence, with a plan that is admitted |
| `Harness.dfy` | test harness states and admission |
| `Archcheck.dfy` | verifier import closure, unique findings |

Conventions. An instant is an integer with a zone offset. A digest is ideal: it is modelled by what it digests, or,
where its text is used (firewall descriptions and tags), by an abstract function with 64-character results. JSON is
injective. Patterns and closed enumerations are parameters, except identifiers, digests and step names, which are
spelled out; where a proof needs a pattern to exclude a separator, the model demands only that exclusion, so it admits
more texts than the pattern does. Counters keep their width: generations wrap at 2^64, step attempts at 2^32. Clocks,
lost replies, crashes and foreign writers are scripts that the proofs quantify over.

Where the code and the claims made about it differ, the model follows the code:

- `Request` in a structurally pre-mutation state routes to CANCELLED without reading the history
  (internal/workflow/cancellation.go:144-146), although the journal validator refuses that transition after a pause
  that followed a mutation (internal/workflow/journal.go:400-402). `PreMutationRouteAcceptedIff` gives the exact
  condition and `PreMutationRouteRefused` a family of histories where the route is refused.
- The same shortcut does not read the point of no return, which `Request` consults only further down
  (internal/workflow/cancellation.go:436), and the validator never reads it: `PointOfNoReturnIsFinal` and
  `PastPointRouteAcceptedIff` say exactly when an operation past its point is still cancelled, `CancelledPastThePoint`
  gives histories where it is.
- The upgrade of a pending cancellation by a recorded pause (internal/workflow/journal.go:429) can never run:
  `NoPauseWhilePending`.
- `bindingsEqualPolicy` (internal/control/executor.go:318-334) is documented as exact equality but compares sizes and
  membership; `ComparesSetsExactlyWhen` gives the exact condition and `RepeatHidesAbsence` an accepted wrong set.
- A one-shot cancellation capability is spent by its first matching use even when the boundary has moved
  (internal/workflow/cancellation.go:220-238).
- The store's generation counter wraps at 2^64 and then hands out the value that means "must not exist"
  (internal/control/store.go:212-218); `CounterWraps` states it, `GenerationsNeverReused` the exact bound.
- Exposure targets are compared by joined key only, in the plan (internal/policy/plan.go:915-929) and against the
  contract (internal/policy/permission.go:448-452), where step and permission targets are compared by value: a
  separator inside a planned fingerprint makes a key ambiguous. `ExposureTargetsExact` gives the exact condition,
  `AliasedExposureAdmitted` a plan.

## Model

| member | source | states |
|---|---|---|
| Operation.Machine.Advance | internal/workflow/machine.go:131-149 | a transition succeeds exactly along a table edge that its caller is authorised for, names the new state and counts one generation (wrapping), and otherwise leaves the machine alone |
| Operation.CancellationRouteReachable | internal/workflow/cancellation.go:586-604 | the worklist search answers true exactly when some walk through non-terminal states ends one table edge from the target |
| Operation.ReachabilityTable | internal/workflow/machine.go:22-82 | for every state, which cancellation ends can still be reached |
| Journal.ValidateJournal | internal/workflow/journal.go:309-490 | the loop over machine, attempts, completed steps, mutation flag and pending cancellation accepts exactly the histories the fold accepts |
| Journal.PrefixAccepted | internal/workflow/journal.go:309-345 | whatever is replayed of an accepted journal is replayable |
| JournalProperties.AcceptedPrefix | internal/workflow/journal.go:344-423 | every non-empty prefix of an accepted journal is accepted and ends in the state its last entry names |
| JournalProperties.AtMostOneRequest | internal/workflow/journal.go:346-372 | an accepted journal holds at most one cancellation request |
| JournalProperties.PendingRoute | internal/workflow/journal.go:358-433 | while a cancellation is pending its route is reachable, and the route is CANCELLED exactly when no entry so far may have mutated |
| JournalProperties.RequestPendingUntilTaken | internal/workflow/journal.go:373-423 | a request stays pending until its route is taken, and nothing is pending before one |
| JournalProperties.RequestConfinesTheEnd | internal/workflow/journal.go:344-423 | after a request the only terminal ends are CANCELLED, VERIFIED_ROLLBACK and FAILED_CLEANUP |
| JournalProperties.CancelledMeansUntouched | internal/workflow/journal.go:400-402 | CANCELLED never follows an entry that may have mutated |
| JournalProperties.NoPauseWhilePending | internal/workflow/journal.go:424-433 | no pause is recorded while a cancellation is pending |
| JournalProperties.TerminalIsLast | internal/workflow/journal.go:330-343 | nothing is recorded after a terminal state |
| JournalProperties.TimesOrdered | internal/workflow/journal.go:330-343 | entry times never decrease along an accepted journal |
| JournalProperties.AttemptsContiguous | internal/workflow/journal.go:434-478 | attempts of a step are numbered 1, 2, 3, ... and a DONE step is never attempted again |
| JournalProperties.ObjectNamesSort | internal/workflow/journal.go:492-508 | object names of an accepted journal sort in entry order |
| Cancellation.PointOfNoReturnReached | internal/workflow/cancellation.go:480-529 | the loop finds a crossing of the contract's point of no return exactly when one is recorded |
| Cancellation.RestoreCancellationController | internal/workflow/cancellation.go:287-362 | the refold loop yields a controller exactly when the journal is accepted, bound and restorable, and then the one the fold describes |
| Cancellation.CancellationContext | internal/workflow/cancellation.go:427-478 | the second refold yields the next contract step and the conservative mutation observation, exactly when the journal admits one |
| Cancellation.RequestCancellation | internal/workflow/cancellation.go:113-177 | each of refusal, immediate route and persisted request happens exactly when the outcome function says, with the binding or entry it says |
| Cancellation.AtBoundary | internal/workflow/cancellation.go:181-216 | a queued request is honoured exactly after its step durably ended, with the route restored from the journal |
| Cancellation.ApplyCancellation | internal/workflow/cancellation.go:220-238 | moves the machine exactly for an unused matching capability at its own boundary; the first matching use spends it |
| CancellationProperties.RestoredRouteAgrees | internal/workflow/cancellation.go:287-362 | the route the controller rebuilds equals the pending route the validator holds, for every journal both accept |
| CancellationProperties.ContextAgrees | internal/workflow/cancellation.go:427-478 | the context's observation is "not occurred" exactly when no entry may have mutated, and it counts the same completed steps as the restored controller |
| CancellationProperties.RouteRecordedIff | internal/workflow/journal.go:385-423 | exactly when the validator accepts a recorded route: along a table edge, CANCELLED only of an untouched history, ROLLBACK unless a pending request demands CANCELLED |
| CancellationProperties.BoundaryRouteAccepted | internal/workflow/cancellation.go:181-216 | any route AtBoundary issues, recorded next, extends to an accepted journal with nothing pending |
| CancellationProperties.PausedRouteAccepted | internal/workflow/cancellation.go:113-177 | the same for any route Request issues while PAUSED |
| CancellationProperties.PreMutationRouteAcceptedIff | internal/workflow/cancellation.go:144-146 | the pre-mutation shortcut is accepted exactly when nothing may have mutated |
| CancellationProperties.PreMutationRouteRefused | internal/workflow/journal.go:400-402 | resumed histories for which the shortcut's transition is refused |
| CancellationProperties.RoutesFollowTheHistory | internal/workflow/cancellation.go:427-529 | routes from a boundary or while PAUSED name the history: CANCELLED when untouched, otherwise ROLLBACK under a real boundary, never past the point of no return; a structurally pre-mutation route is always CANCELLED |
| CancellationProperties.RoutedBindingsApply | internal/workflow/cancellation.go:220-283 | every routed binding passes the binding checks ApplyCancellation makes, along a table edge |
| CancellationProperties.PersistedRequestRestores | internal/workflow/cancellation.go:145-177 | a request persisted as told is the one a later restore finds queued, with its route and binding |
| CancellationProperties.PointOfNoReturnIsFinal | internal/workflow/cancellation.go:113-177 | once reached, no extension of the journal restores a queued request or honours one at a boundary, and Request answers exactly through the pre-mutation shortcut, with CANCELLED |
| CancellationProperties.PastPointRouteAcceptedIff | internal/workflow/cancellation.go:144-146 | a route issued past the point of no return is accepted by the validator exactly when nothing may have mutated |
| CancellationProperties.CancelledPastThePoint | internal/workflow/cancellation.go:144-146 | histories past the point of no return for which the shortcut routes to CANCELLED and every record of that route is accepted |
| AuditProvider.ListingIsTheChain | internal/control/statedir.go:241-262 | a sorted listing of a directory that holds a chain is exactly the chain's file names |
| Handoff.ReadHandoffRecords | internal/control/handoff.go:665-694 | the reader accepts exactly the directories that hold a valid chain, and returns that chain |
| Handoff.HeldChainUnique | internal/control/handoff.go:665-727 | one directory holds at most one chain |
| Handoff.Session.Append | internal/control/handoff.go:388-419 | a successful append extends durable chain and session alike by one valid record; a failed one leaves at most that record behind |
| Handoff.Session.UploadCreateOnly | internal/control/handoff.go:521-551 | success means the object is stored with the exact bytes, written now or earlier by this operation |
| Handoff.Session.AdoptExistingBucket | internal/control/handoff.go:457-476 | an existing bucket is adopted only with its own recorded creation or its uploaded envelope; an orphan never is |
| Handoff.Session.EnsureBucket | internal/control/handoff.go:421-455 | in a quiet run the bucket ends created and recorded, unless a creation went unrecorded |
| Handoff.Session.VerifyObservation | internal/control/handoff.go:587-617 | success means bucket and both objects were observed, with recorded bytes and generations |
| Handoff.Bootstrap | internal/control/handoff.go:168-192 | keeps every record valid under any interference; with a quiet provider reaches handoff-verified from any own state but the orphaned one |
| Handoff.LockAuditRetention | internal/control/handoff.go:197-268 | every call it makes follows its own opening; with a quiet provider performs the missing steps up to retention-locked, the lock exactly once |
| HandoffRuns.AnyHistory | internal/control/handoff.go:168-268 | under any crashes, foreign writers and clocks, whatever envelope each run is given: the irreversible call comes only after the durable verified, configured and claimed records and after the same run observed both objects and the retention in force; retention-locked only after the run observed a 365-day lock; the chain stays readable |
| HandoffRuns.Interrupted | internal/control/handoff.go:168-576 | however often the engine was interrupted, the provider's effects are a prefix of the six canonical mutations |
| HandoffRuns.Finish | internal/control/handoff.go:168-268 | from whatever interruptions left, one quiet run with a punctual clock performs exactly the rest, or blocks before an orphaned bucket |
| HandoffRuns.InterruptedThenFinished | internal/control/handoff.go:168-576 | after any number of interrupted runs of one envelope, one further run under any punctual clock performs exactly the missing mutations, unless a bucket creation went unrecorded: then it blocks and never adopts |
| ControlStore.MemoryObjects.CompareAndSwap | internal/control/store.go:233-247 | writes exactly when the name exists at the expected generation, with the next generation |
| ControlStore.GenerationsNeverReused | internal/control/store.go:212-218 | no two writes share a generation and none is zero, exactly while there are fewer than 2^64 writes |
| ControlStore.CounterWraps | internal/control/store.go:212-218 | where the counter wraps, and to what |
| ControlStore.GenerationPinsContent | internal/control/store.go:194-247 | whoever writes in between, content at one name and generation never changes |
| ControlStore.LockRoundTrip | internal/control/executor.go:372-437 | a verified round trip means nobody else wrote the lock between its first and last read, and the final content is the first; "no mutation" means none; with nobody else at the lock, short of the wrap, it is verified exactly for a cleanly released lock, an admissible holder and an open approval window at both writes |
| ControlBucket.ControlWorld.Converge | internal/control/executor.go:189-253 | verified only for the exact configuration under a durable creation record; in every run, whoever else writes, its own calls leave a bucket they meet unrecorded as it is, create only behind a claim and enable versioning only behind the creation record; every provider write follows a fresh look at the approval window; reports no mutation only when no provider write was made |
| ControlBucket.ControlWorld.InterruptedThenConverged | internal/control/executor.go:189-253 | over any number of interrupted attempts the bucket is created at most once, and a calm attempt verifies it unless the creation went unrecorded |
| ControlBucket.BindingsEqualPolicy | internal/control/executor.go:318-334 | the loop's answer: as many observed bindings as rendered ones for the bucket, each of them rendered |
| ControlBucket.ComparesSetsExactlyWhen | internal/control/executor.go:318-334 | that answer is set equality against every policy exactly when nothing observed repeats or something observed is another bucket's |
| ControlBucket.RepeatHidesAbsence | internal/control/executor.go:318-334 | a repeated binding makes it accept a set that lacks a rendered one |
| Cidr.OverlapIsSharing | internal/isolation/guard.go:457-459 | the overlap test of canonical blocks is sharing an address |
| Cidr.PrivateTestIsInside | internal/isolation/guard.go:443-455 | the private-range test is containment of every address |
| Cidr.ValidateNetworkCIDR | internal/isolation/guard.go:411-433 | accepts exactly a canonical block of at most 29 bits inside one block of section 3 of RFC 1918 that shares no address with any forbidden, canonical block |
| Evidence.KeyIsInjective | internal/isolation/guard.go:248-297 | a canonical target key stands for exactly one identity |
| Evidence.ValidateHarnessLocks | internal/isolation/guard.go:1028-1110 | accepts exactly the run's own held lock plus one observation per declared environment, nothing else |
| Evidence.ValidatePermissionProof | internal/isolation/permission_proof.go:56-123 | accepts exactly when the observations are the pinned expected tuples, verdicts included, in any order |
| Capacity.ValidateCapacityProof | internal/isolation/guard.go:814-896 | accepts exactly a digested, duplicate-free plan each of whose machines and disks fits the caps |
| Firewall.AcceptedIsRequired | internal/isolation/firewall.go:399-495 | a rule passes exactly when it is, field for field, the one rule its purpose requires, and the purpose is admissible |
| FirewallProof.SelectTargets | internal/isolation/ownership.go:80-111 | accepts exactly distinct run firewall targets and returns them in key order |
| FirewallProof.CheckRules | internal/isolation/firewall.go:308-334 | accepts exactly the required pair, in either order |
| FirewallProof.CheckObservations | internal/isolation/firewall.go:335-376 | accepts exactly one exact observation per required rule whose absent ones are the selected targets |
| FirewallProof.ValidateFirewallRules | internal/isolation/firewall.go:276-377 | accepts exactly when rules, observations and targets are, up to order, what the pair of absences determines |
| Guard.ValidateMutationIntents | internal/isolation/guard.go:898-961 | accepts exactly one insert per absent rule carrying that rule, and returns them in key order |
| PreMutation.EvaluatePreMutation | internal/isolation/guard.go:762-812 | succeeds exactly when every proof holds, with the due inserts and the evidence digest |
| PreMutationProperties.AuthorizePreMutation | internal/isolation/guard.go:716-727 | a decision exists exactly for accepted evidence and holds its digest, operation and expiry |
| PreMutationProperties.RevalidatePreMutation | internal/isolation/guard.go:735-760 | a boundary exists exactly for timely accepted evidence with the decision's digest and operation |
| PreMutationProperties.IntentsAreTheAbsentRules | internal/isolation/guard.go:735-760 | the boundary inserts exactly the required rules confirmed absent, each carrying that rule, and is converged exactly when both are present |
| PreMutationProperties.SameFingerprintSameEvidence | internal/isolation/guard.go:1347-1413 | equal digests of accepted evidence mean equal policies and evidence equal up to order |
| PreMutationProperties.ReorderingAccepted | internal/isolation/guard.go:1347-1413 | any reordering of accepted evidence, itself in time, is accepted with the same intents and digest |
| PreMutationProperties.RevalidatesExactlyReordering | internal/isolation/guard.go:735-760 | revalidation succeeds exactly for the same policy and a reordering of the authorised evidence, in time |
| PreMutationProperties.RefreshingNeverExtends | internal/isolation/guard.go:1118-1139 | in no chain of refreshes, each authorised at any instant after it revalidated, is anything revalidated or authorised five minutes or more after the first authorisation |
| PreMutationProperties.ChainKeepsIntents | internal/isolation/guard.go:735-760 | all boundaries of one chain order the same work |
| PreMutationExample.SomeEvidenceIsAccepted | internal/isolation/guard.go:762-812 | the guard's conditions can all be met at once: evidence that is accepted with both inserts due |
| Network.ApplyResource | internal/gcp/network_client.go:351-394 | describe, create, describe again: what each outcome and mutation report says about the provider |
| Network.AppliesIff | internal/gcp/network_client.go:316-394 | a plan whose resources do not get in each other's way applies exactly when, before the step, each resource is there as planned, absent, or a NAT whose absent router the plan creates first |
| Network.ApplyStep | internal/gcp/network_client.go:291-348 | for every plan and failure point: "not occurred" means unchanged, "occurred" means something was created, and unless "unknown" the created list is everything gained, each record with the incarnation seen right after its create; on a calm provider with a live authorization it succeeds exactly for plans that can be started, and success leaves the whole plan in place (a router may carry only the NAT the plan puts into it) |
| Network.AdmitCompensation | internal/gcp/network_compensate.go:101-133 | accepts exactly distinct records bound to this step, an attempt made and a plan resource, and orders them in reverse plan order |
| Network.DeleteResource | internal/gcp/network_compensate.go:135-188 | deletes only the recorded incarnation, a router only when empty; what each report says about the provider |
| Network.CompensateStep | internal/gcp/network_compensate.go:55-96 | under any failures everything missing was named by its exact incarnation; "not occurred" means unchanged, "occurred" means a recorded resource is gone, success that none is left; a quiet provider loses all that was stacked on it |
| Network.ApplyThenCompensate | internal/gcp/network_compensate.go:55-188 | after an apply under any disturbance that succeeded or failed knowing what it did, a quiet compensation restores the provider, provided every record has its incarnation; one without makes it refuse the whole list and leave everything created in place |
| Network.SameSubnetRanges | internal/gcp/network_compensate.go:284-299 | the counting comparison is equality of the two lists up to order |
| ExecutionGate.TupleKeyInjective | internal/policy/permission.go:655-659 | a joined permission key stands for one tuple whatever its fingerprint contains |
| ExecutionGate.ValidateResources | internal/policy/plan.go:1145-1166 | accepts exactly well-formed resources with distinct scope, kind and name |
| ExecutionGate.ValidateSteps | internal/policy/plan.go:1184-1254 | accepts exactly distinct steps whose targets are distinct plan resources and together cover all of them |
| ExecutionGate.ValidatePermissions | internal/policy/plan.go:1256-1325 | accepts exactly distinct permissions of named steps on plan resources, covering a mutating plan |
| ExecutionGate.ValidateExposureControls | internal/policy/plan.go:896-929 | accepts no controls without exposure, and otherwise exactly AP-3 controls whose targets carry distinct keys of plan resources |
| ExecutionBlockers.ValidateExecutionContract | internal/policy/permission.go:286-370 | adds no blocker exactly when steps, risks and exposure match and the plan's permissions are the product of steps, targets and required permissions |
| ExecutionBlockers.CountDecidesSet | internal/policy/permission.go:357-368 | comparing counts and membership of keys decides equality of the two tuple sets |
| ExecutionBlockers.ExposureTargetsExact | internal/policy/permission.go:432-455 | for a valid plan that meets its contract the exposure targets carry exactly the keys of the exposed steps' targets, and are those targets exactly when none holds a separator before its fingerprint, so whenever no planned fingerprint holds one |
| ExecutionBlockers.ValidateResourceEvidence | internal/policy/permission.go:580-600 | adds no blocker exactly when the rediscovered resources, fingerprints included, are the plan's up to order |
| ExecutionBlockers.ValidatePermissionEvidence | internal/policy/permission.go:602-624 | adds no blocker exactly when the evidence is the plan's permissions up to order, all granted |
| ExecutionBlockers.ValidatePlanForExecution | internal/policy/permission.go:226-284 | admits exactly a valid plan with its contract met, complete evidence and no other blocker |
| ExecutionBlockers.AdmittedPinsPermissions | internal/policy/permission.go:226-370 | for an admitted plan granted evidence, plan permissions and the contract product are one set, each tuple once |
| ExecutionBlockers.StrayGrantBlocks | internal/policy/permission.go:602-624 | a tuple outside the product keeps any plan from being admitted |
| ExecutionExample.SomePlanIsAdmitted | internal/policy/permission.go:226-284 | the gate's conditions can all be met at once: a plan, contract and evidence that are admitted |
| ExecutionExample.AliasedExposureAdmitted | internal/policy/plan.go:919-929 | a planned fingerprint that holds a separator lets an exposure of something outside the plan be admitted |
| Harness.RunsOnlyAdvance | internal/isolation/state.go:141-260 | along every run the binding and opening time never change, the phase never returns to pending and evidence never ages backwards |
| Harness.T8TimesIncrease | internal/isolation/state.go:141-260 | accepted test evidence is strictly newer than all accepted before it |
| Harness.AdmittedTestIsBacked | internal/isolation/admission.go:118-137 | every admitted test runs on evidence under an hour old and newer than every drift recorded earlier in the run |
| Harness.DriftNeedsRestore | internal/isolation/state.go:177-260 | after an accepted drift no test is admitted before an accepted restore; renewal cannot repair |
| Harness.T8Recorded | internal/isolation/state.go:141-260 | accepted evidence is exactly what the state then holds, usable and without drift |
| Harness.BlockadeUntilOpened | internal/isolation/admission.go:90-116 | from pending, nothing beyond the approved envelope is admitted before a complete test result opened the harness |
| Harness.OpenedOnce | internal/isolation/state.go:141-166 | a run opens the harness at most once |
| Harness.RunIsValid | internal/isolation/state.go:307-397 | every state of a run passes validation under its own integrity digest |
| Harness.PendingIsNew | internal/isolation/state.go:116-139 | the valid pending states are exactly the ones a new harness starts in |
| Harness.NewHarnessRuns | internal/isolation/state.go:116-260 | whatever is attempted on a new harness, it stays valid under its approved binding, opens at most once and admits nothing beyond the envelope before that |
| Archcheck.FindTransitiveVerifierViolations | internal/archcheck/main.go:332-366 | ends although the queue may hold duplicates, and reports each reachable package's findings once, package by package in breadth-first order from the sorted verifier packages |
| Archcheck.WalkUnique | internal/archcheck/main.go:324-364 | the breadth-first walk the report follows is determined by the imports |
| Archcheck.UniqueFindings | internal/archcheck/main.go:413-424 | keeps exactly the first occurrences |
| Archcheck.FirstsKeepOrder | internal/archcheck/main.go:413-424 | first occurrences do not repeat and keep their order |

## Left out

- File and process I/O: fsync, symlinks, modes and command rendering; the disk is an exclusive create and a sorted listing.
- Provider wire formats and projections; the provider is observed through functions of its state.
- JSON and schema decoding, duplicate-key rejection and canonical byte encodings; encodings are injective.
- Regular expressions, redaction and secret-shape detection; patterns are parameters of the model.
- Journal.ValidateJournal: names inside entries are checked by length and character class where a pattern is fixed; free-text fields carry no redaction check.
- Evidence.ValidatePermissionProof: which permissions are forbidden service writes is a parameter; inventory pins carry an ideal digest, so their textual digest check is gone.
- Evidence.KeyIsInjective: demands of each identity part only what its pattern excludes, and so holds of more identities than the code accepts; the scopes of known resource kinds are not modelled.
- PreMutation.EvaluatePreMutation: error kinds and field paths are reduced to acceptance or refusal.
- Network.ApplyStep: dependency refusals of the provider are faults; admission of the step and its authorization are the `grants` it is given, and timeouts are faults.
- Network.ApplyThenCompensate: nobody else changes the network in between; after an apply that does not know whether its last create took effect only what Network.CompensateStep states under any failures holds.
- ExecutionBlockers.ValidatePlanForExecution: approval, intent, step-up, policy-hash, precondition, recovery-evidence, exposure-time and observation-time blockers enter as a list.
- ExecutionGate.ValidateExposureControls: sources, ports, authentication, transport and lifetime of an exposure are two parameters; only its targets are spelled out.
- ExecutionGate.ValidateSteps: field checks of a step that do not bind resources are one parameter.
- Harness.RunsOnlyAdvance: parsing a stored state is its validity and integrity; concurrency of the store that holds it belongs to the object store.
- ControlBucket.ControlWorld.Converge: the record chain is reduced to the two records the step reads; the chain itself is in the handoff.
- Step admission, bucket IAM grants, seeding of the control store and its seed checks in internal/control/executor.go.
- Cleanup selection, ownership records and permanent singletons in internal/isolation/ownership.go.
- The other passes of internal/archcheck/main.go, which are thin uses of the Go type checker.
- User interface, error wording, getters, cloning, manifest projection and pricing.
