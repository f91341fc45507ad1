# Insights Remote: a verified model

Insights Remote ships SBOMs and image inspections that builds leave in labelled ConfigMaps to a set of
post-processors, retries failures, and cleans up. This project models its controllers in Dafny and proves
what they guarantee together. `dafny verify dfyconfig.toml` checks everything.

## What is modelled

**ConfigMap delivery and retry.** A ConfigMap is the sequence of its stored revisions; its version is its
position (`History.dfy`). Every write goes through a version check and may be refused, or be applied
without its answer arriving (`Store.dfy`). `Controllers.dfy` has the reconciler, the batch update and the
two cron ticks as methods that change an API server. `Protocol.dfy` interleaves workers, cron ticks, the
informer cache, the work queue, other writers, aborted rounds and process restarts, one step at a time;
its steps use the same functions the methods are proved against, and `Progress.dfy` proves that an
undisturbed round or tick of the machine is one call of the method. The central result is that every
object's history stays lawful under every interleaving (`Protocol.EveryHistoryIsLawful`): each revision
follows from its predecessor by one whole round, one release, or a foreign write. The guarantees on
retries, marks, counters and delays are inductions over lawful histories; delivery accounting
(`Delivery.dfy`) and what keeps the protocol going are about the whole machine: exactly when an acceptable
object is forgotten (`Progress.dfy`), which objects are touched at all and whose clock a mark shows
(`Selection.dfy`), and exactly which objects can still be completed from a reachable
state, without a restart or another writer (`Completion.dfy`).

**Dependency Track.** `ProjectForest.dfy` has the server's projects as a forest and the parent chain with a
fault at any call, before or after it took effect. `ConcurrentChains.dfy` interleaves any number of such
chains call by call, `DisjointChains.dfy` tells from the chains and the starting forest whether that is
safe, and `ConvergingChains.dfy` shows that then every chain ends as it would by itself.
`DependencyTrack.dfy` has the code as methods, up to the upload and its outcome. `Handshake.dfy` has the
polling goroutine and its caller as two processes over two unbuffered channels.

**Build scans.** `ScanEnv.dfy` layers and sorts the scan pod's environment, `EnvParser.dfy` parses the
configured extras, `ScanPods.dfy` has the kill-then-create protocol under faults.

**Namespace tokens.** `NamespaceTokens.dfy` has the secret loop with its flags and where repeated passes end.

### Assumptions

- Processor labels, their `-error` keys, the retries key and the processed key are pairwise different, and
  the processor list does not change. The three processors `main` installs satisfy this
  (`Guarantees.ShippedProcessorsAreWellFormed`).
- ConfigMaps are created without the controller's own keys; other writers leave those keys alone but may
  change or delete anything else at any time; a deleted name is not used again. The clock never goes back.
- Dependency Track numbers projects in creation order, lists same-named projects in a stable order, and
  accepts a second project with a name in use: the code relies on its own lookup, not on the server.
- Only labelled secrets are named `insights-token`; an unlabelled one would make every Create fail, which
  the model has as a refused call.

### Where the code and its documentation differ

The model follows the code. The processed mark is an annotation, not the label the repository's README
describes. A round does not recheck the event predicates. The deferred-clear cron drops the error of its
32-bit parse and tests the `err` of its last Update instead, so one failed Update ends the useful part of
that tick, and deadlines from 2^31 on are clamped and released early. The expected pods in
`internal/controller/build_controller_test.go` lack `LAGOON_BUILD_NAME`, which the code always adds. The
namespace reconciler keeps a valid token of another namespace, and may set `foundItem` for a secret it
deletes, so that one pass can leave a namespace without any token.

Two properties one would hope for hold only under a condition, which is proved to be exact:

- No acceptable object is forgotten, unless a worker takes its key while the namespace is missing from the
  cache: `Reconcile` then returns nil, and only another write, a renewed announcement by the informer or a
  restart brings the object back (`Progress.NoLostWakeups`, `Progress.NamespaceRaceForgets`).
- Active project names stay unique under concurrent reconcilers if and only if no two of the chains would,
  each by itself, create a project of the same name (`DisjointChains.UniqueIffDisjoint`). For two new
  environments of one project that means: exactly if the project they share is already there
  (`DisjointChains.SharedRootIsSafeIffThere`).

## Model

| member | source | states |
|---|---|---|
| `Decimal.RoundTrip64` | internal/controller/configmap_controller.go:133-188 | the stored retry counter reads back without error exactly on the signed 64-bit range |
| `Decimal.Reparse32` | cmd/main.go:616 | a written deadline reads back clamped to 32 bits |
| `Decimal.FormatMeaning` | internal/controller/configmap_controller.go:273-276 | a number is written as plain decimal digits without leading zeros, with a minus sign in front of negative ones only |
| `Decimal.ParseMeaning` | internal/controller/configmap_controller.go:133-143 | parsing succeeds exactly on optionally signed digits whose number fits, and gives it; a number that does not fit is clamped, anything else is an error |
| `ConfigMaps.RoundMeaning` | internal/controller/configmap_controller.go:144-190 | a committed round keeps recorded successes, records an outstanding one exactly when its call returned nil, and writes the processed mark exactly when nothing is outstanding |
| `ConfigMaps.VisitRecords` | internal/controller/configmap_controller.go:145-170 | each processor gets an update exactly when it was called, marked with its outcome, and no later processor overwrites it |
| `ConfigMaps.FailureIsExplained` | internal/controller/configmap_controller.go:157-165 | the error text of a failed call is what ends up under that processor's error key |
| `ConfigMaps.RetryListed` | internal/controller/configmap_controller.go:130-173 | the round fails exactly when some call that was made failed |
| `ConfigMaps.RetryMeaning` | internal/controller/configmap_controller.go:157-173 | the retry list holds the labels of exactly the calls that failed |
| `ConfigMaps.CallsIff` | internal/controller/configmap_controller.go:145-154 | a processor is called unless it is nil or its annotation reads "success" |
| `ConfigMaps.AcceptsIff` | internal/controller/configmap_controller.go:200-250 | both event filters let an object through exactly when the insights label is among its label keys or values, neither the deferral nor the max-retry label is, and it has no processed annotation |
| `ConfigMaps.RoundLabels` | internal/controller/configmap_controller.go:172-183 | a failing round adds the deadline, and the max-retry label exactly once the new counter exceeds the limit; a clean one changes no label, and no other label ever changes |
| `ConfigMaps.RoundBookkeeping` | internal/controller/configmap_controller.go:133-188 | a clean round writes the time it read under the processed key, a failing one leaves that key alone; the counter is written back, one higher after a failing round |
| `ConfigMaps.RoundTouchesOnly` | internal/controller/configmap_controller.go:144-190 | no annotation changes but those of called processors, the error keys of failed ones and the two bookkeeping keys |
| `ConfigMaps.CounterMeaning` | internal/controller/configmap_controller.go:133-143 | a stored counter counts if it is a number in the 64-bit range, and as zero otherwise |
| `ConfigMaps.DeadlineMeaning` | internal/controller/configmap_controller.go:273-276 | the deadline is the whole second of the clock read plus the configured minutes, with 64-bit wrap-around |
| `ConfigMaps.ExpiryMeaning` | cmd/main.go:616-618 | a label counts as expired after its second, clamped to 32 bits; text that does not start like a number counts as the epoch |
| `ConfigMaps.ReleaseMeaning` | cmd/main.go:618-628 | a release takes the deferral label away and nothing else |
| `Controllers.ConfigMapReconciler.RunProcessors` | internal/controller/configmap_controller.go:144-170 | the loop calls exactly the non-nil processors without a recorded success, in order, and computes the specified retry list and updates |
| `Controllers.ConfigMapReconciler.DecideUpdates` | internal/controller/configmap_controller.go:130-188 | labels and annotations of the round equal the specified plan, for readable, unreadable and missing counters; `RoundMeaning`, `RoundLabels`, `RoundBookkeeping` and `RoundTouchesOnly` say what that plan is |
| `ConfigMaps.RecognisedIff` | internal/controller/configmap_controller.go:89-116 | which values of the two labels are let through: a type label decides alone, without one the two known insights values do |
| `ConfigMaps.TypeMeaning` | internal/controller/configmap_controller.go:89-107 | which of the two types an object has: its type label as it stands, else "sbom" for sbom-gz and "inspect" for image-gz, else unclassified |
| `Controllers.ConfigMapReconciler.Reconcile` | internal/controller/configmap_controller.go:58-198 | anything not found is nil without effect, a failing Get or an unrecognised type is an error without effect; otherwise the only effect is one versioned write of the plan over the snapshot |
| `Controllers.OverwriteAll` | cmlib/cmlib.go:40-42 | overwriting key by key in any map order is an overlay |
| `Controllers.BatchUpdateCM` | cmlib/cmlib.go:26-67 | an error without a call when there is nothing to write, else one versioned write of both overlays |
| `Controllers.ClearDeferred` | cmd/main.go:613-634 | the loop with its shared error changes the objects as the recursive tick specification does |
| `Controllers.BurnProcessed` | cmd/main.go:568-582 | the loop deletes what the recursive specification deletes; failures do not stop it |
| `Store.TickReleasesExactly` | cmd/main.go:613-634 | for any listed batch, an item is released exactly when it is due, no earlier Update failed and the server applies this one |
| `Store.NamesNotListed` | cmd/main.go:613-634 | a tick leaves every object outside its list as it was |
| `Store.DueMeaning` | cmd/main.go:613-618 | an item is due exactly when it has the deferral label and the time written there, clamped to 32 bits, has passed |
| `Store.BurnErasesExactly` | cmd/main.go:568-582 | a tick deletes exactly the listed objects with the processed mark whose Delete went through |
| `History.ProcessedIsFinal` | internal/controller/configmap_controller.go:144-190 | the processed mark and every success hold on the marked revision and all later ones |
| `History.SuccessIsFinal` | internal/controller/configmap_controller.go:148-154 | a recorded success is never taken back |
| `History.MarkHoldsLastStamp` | internal/controller/configmap_controller.go:184 | the processed mark is there exactly after a clean round, and holds the time of the last one |
| `History.StepStamps` | internal/controller/configmap_controller.go:172-190 | no failing round, release or foreign write changes the processed mark; a clean round writes its own time |
| `History.StepKeepsForeign` | internal/controller/configmap_controller.go:130-195 | the controller changes no label or annotation outside its protocol |
| `History.CounterCountsFailures` | internal/controller/configmap_controller.go:133-188 | the stored counter is the number of committed failing rounds (as a 64-bit value) and the max-retry label is present exactly when that exceeds the limit, which the largest Go int never is |
| `History.AcceptedRoundsBound` | internal/controller/configmap_controller.go:173-240 | at most limit + 1 committed rounds start on a revision both predicates accept |
| `History.RetryBoundIsExact` | internal/controller/configmap_controller.go:173-240 | the bound is reached, and there is a bound if and only if the limit is below the largest Go int |
| `History.RetryMeasure` | internal/controller/configmap_controller.go:173-190 | an accepted failing round lowers the remaining budget by one and keeps it non-negative; a clean one ends acceptance for ever |
| `History.RoundsNeverRetrigger` | internal/controller/configmap_controller.go:172-240 | every committed round leaves an object the predicates reject |
| `History.OnlyReleasesReaccept` | internal/controller/configmap_controller.go:202-240 | of the controller's writes only a release makes a rejected object acceptable, and only an unprocessed one with retries left |
| `History.DeferralHoldsLastDeadline` | internal/controller/configmap_controller.go:173-175 | a deferral label always holds the deadline of the last failing round |
| `History.DeadlineHonoured` | cmd/main.go:616-623 | a label is never removed by its deadline if and only if the deadline fits 32 bits |
| `History.ReleasedLateEnough` | internal/controller/configmap_controller.go:273-276 | a release comes only when more than the delay less one second has passed since the clock read of the round that deferred, for deadlines that fit 32 bits |
| `History.ExpiredSoonEnough` | internal/controller/configmap_controller.go:273-276 | once more than the delay has passed since that read the label counts as expired |
| `History.DelayIsMinutesIff` | internal/controller/configmap_controller.go:273-276 | the delay is the configured number of minutes if and only if that fits a 64-bit duration |
| `History.ExhaustedIsFinal` | internal/controller/configmap_controller.go:178-240 | after the max-retry label is written no later revision is ever accepted |
| `Protocol.EveryHistoryIsLawful` | internal/controller/configmap_controller.go:58-198 | under every interleaving each stored revision follows from its predecessor by one whole round, one release or a foreign write |
| `Protocol.StepKeeps` | cmlib/cmlib.go:62-67 | each step keeps the invariant, only extends histories and never revives a deleted object |
| `Delivery.DeliveriesAddUp` | internal/controller/configmap_controller.go:145-195 | nil-returning calls per object and processor = those of lost rounds + those still under way + 1 if success is recorded |
| `Delivery.CommitRecords` | internal/controller/configmap_controller.go:156-190 | an applied commit records exactly the successes its round delivered |
| `Delivery.BurnsOnlyDelivered` | cmd/main.go:562-582 | the controller deletes an object only after every active processor returned nil for it, however stale its list |
| `Delivery.BurnedWasProcessed` | cmd/main.go:568-576 | a processed mark seen in a stale list still holds, with every success, on the stored object |
| `Progress.NoLostWakeups` | internal/controller/configmap_controller.go:64-73 | in every run an acceptable object is queued, held by a worker, or about to be announced, if and only if no round that missed its namespace has dropped its announced key since it was last written by others, announced again, or the process restarted |
| `Progress.NamespaceRaceForgets` | internal/controller/configmap_controller.go:69-73 | the shortest case: created, announced, taken before the namespace is known, forgotten |
| `Progress.StaysForgotten` | internal/controller/configmap_controller.go:58-198 | no step of a worker or cron brings a forgotten object back |
| `Selection.UnlabelledAreUntouched` | internal/controller/configmap_controller.go:200-250 | in every run, an object no revision of which has the insights label among its label keys or values is never queued or held by a worker, never given to a processor, and never written by a round |
| `Selection.TouchedWasAccepted` | internal/controller/configmap_controller.go:200-240 | in every run, whatever is queued, held or given to a processor had a revision that both filters accept |
| `Selection.RoundsAreCommits` | internal/controller/configmap_controller.go:190-195 | every round revision of a run was written by an applied commit, with the outcomes and clock reads of its worker |
| `Selection.MarkIsCommitTime` | internal/controller/configmap_controller.go:184 | in every run the processed mark holds the time that the worker of an applied, clean commit on that object had read in an earlier step, after its last processor call |
| `Progress.RoundRefinesReconcile` | internal/controller/configmap_controller.go:58-198 | an undisturbed round of the machine is one `Reconcile` in all its outcomes: same objects, same nil-returning calls, and the key is queued again exactly when it returns an error |
| `Progress.TickRefinesClearDeferred` | cmd/main.go:613-634 | the machine's undisturbed tick has the effect of one run of the cron's loop |
| `Progress.TickRefinesBurnProcessed` | cmd/main.go:568-582 | the same for the burn-after-reading tick |
| `Completion.CanCompleteIff` | internal/controller/configmap_controller.go:58-240 | from every reachable state an object has a continuation, without restart, panic or other writer, that ends with it processed, if and only if it is processed already, or of a known type and queued, held, with an accepted revision still to be announced, or acceptable but for its deferral |
| `Completion.EveryDeferredCanComplete` | cmd/main.go:613-634 | the deferred case, with the continuation |
| `Completion.EveryAcceptedCanComplete` | internal/controller/configmap_controller.go:202-240 | the accepted case: a continuation that announces at most the latest revision, and that only if the informer has not done so or the object was forgotten |
| `Completion.DrainAll` | internal/controller/configmap_controller.go:190-195 | from every reachable state all workers and ticks can finish what they are doing without changing a stored object or losing a key |
| `Guarantees.ProcessedMeansDelivered` | internal/controller/configmap_controller.go:144-190 | in every run a marked object keeps mark and successes through every continuation |
| `Guarantees.RetriesAreBounded` | internal/controller/configmap_controller.go:173-240 | in every run at most limit + 1 committed rounds start on an accepted object |
| `Guarantees.CounterIsExact` | internal/controller/configmap_controller.go:133-188 | in every run counter and max-retry label agree with the number of committed failing rounds |
| `Guarantees.CommitsNeverRetrigger` | internal/controller/configmap_controller.go:172-240 | in every run a commit that changes an object leaves it rejected by the predicates |
| `Guarantees.RoundsHaveKnownTypes` | internal/controller/configmap_controller.go:89-116 | in every run a round is committed only on an object of a known type |
| `Guarantees.ReleaseWaits` | cmd/main.go:613-634 | in every run a tick that changes an object does so only after the configured delay |
| `Guarantees.ShippedProcessorsAreWellFormed` | cmd/main.go:415-439 | the three installed processors, any of them nil, meet the naming assumptions |
| `ProjectForest.ChainKeepsForest` | internal/postprocess/dependency_track/dependencyTrack.go:150-187 | under any faults the forest stays acyclic with unique active names and loses nothing; success visits a path of parents |
| `ProjectForest.RetriesConverge` | internal/postprocess/dependency_track/dependencyTrack.go:229-242 | after any attempts with any faults, the next success leaves the forest and visits the projects of one fault-free attempt |
| `ProjectForest.AttemptRecovers` | internal/postprocess/dependency_track/dependencyTrack.go:141-190 | the same for one faulty attempt, from any project in the chain on |
| `ProjectForest.ChainIsIdempotent` | internal/postprocess/postprocess.go:8 | running a finished chain again changes nothing |
| `ProjectForest.ChainSucceedsIff` | internal/postprocess/dependency_track/dependencyTrack.go:170-188 | a fault-free chain succeeds if and only if existing names come first, each under the one before, and the others are new and different |
| `ProjectForest.GetOrCreateKeeps` | internal/postprocess/dependency_track/dependencyTrack.go:141-190 | what is returned is active, has the name and hangs under the wanted parent |
| `ProjectForest.OldestIsTaken` | internal/postprocess/dependency_track/dependencyTrack.go:166-190 | without faults, of the active projects with the name the oldest that hangs where wanted is taken |
| `ProjectForest.NoneIsCreated` | internal/postprocess/dependency_track/dependencyTrack.go:144-190 | when none hangs there it is an error if the name is in use, else a new active project is created, a collection unless it is a leaf |
| `ProjectForest.FirstFaultDecides` | internal/postprocess/dependency_track/dependencyTrack.go:141-190 | which of the calls, look-up, creation or one fetch after the other, fails first decides the result and whether a project was added |
| `ConcurrentChains.AloneIsChain` | internal/postprocess/dependency_track/dependencyTrack.go:141-242 | a chain made call by call with nobody in between is the chain specification, under any faults |
| `ConcurrentChains.EveryRunKeepsForest` | internal/postprocess/dependency_track/dependencyTrack.go:150-187 | however many chains interleave and fail, parents exist, links have no cycle, and no project is lost |
| `DisjointChains.ChainGrows` | internal/postprocess/dependency_track/dependencyTrack.go:150-187 | what a fault-free chain adds: a row of new projects, for the leading names not in use, under the last one that is |
| `DisjointChains.UniqueIffDisjoint` | internal/postprocess/dependency_track/dependencyTrack.go:144-164 | active names stay unique in every interleaving, with any retries and faults, if and only if the names that each chain by itself would create are pairwise disjoint |
| `DisjointChains.CommonNameRaces` | internal/postprocess/dependency_track/dependencyTrack.go:144-164 | otherwise there is a run without any fault that leaves two active projects of one name |
| `DisjointChains.SharedRootIsSafeIffThere` | internal/postprocess/dependency_track/dependencyTrack.go:35-54 | two new environments below one root can be reconciled at the same time if and only if the root is there |
| `ConvergingChains.SuccessIsAsAlone` | internal/postprocess/dependency_track/dependencyTrack.go:229-242 | a chain that gets through among others, with any retries and faults, has done what it does by itself, up to the numbering of new projects |
| `ConvergingChains.NothingElseIsAdded` | internal/postprocess/dependency_track/dependencyTrack.go:144-164 | every project added in such a run is one that some chain adds by itself |
| `ConvergingChains.RetrySucceeds` | internal/postprocess/postprocess.go:8 | a chain that succeeds by itself succeeds after any such run, when tried once more |
| `ConcurrentChains.TwoWorkersCanRace` | internal/postprocess/dependency_track/dependencyTrack.go:144-164 | two chains that both look a name up before either creates it leave two active projects of that name |
| `DependencyTrack.Tracker.GetOrCreateProject` | internal/postprocess/dependency_track/dependencyTrack.go:141-190 | the search loop and the creation equal the specified step, faults included |
| `DependencyTrack.Tracker.ParentChain` | internal/postprocess/dependency_track/dependencyTrack.go:229-242 | the parent loop equals the specified chain, faults included |
| `DependencyTrack.GetWriteInfo` | internal/postprocess/dependency_track/dependencyTrack.go:72-138 | each template, in its own place, rendered with the service label, the environment type label or "unknown", and the message's own project and environment or else their labels; an error exactly when a value is missing or a template fails |
| `DependencyTrack.TemplatesMeaning` | internal/postprocess/dependency_track/dependencyTrack.go:35-54 | the root template comes before the parent template, and is dropped without it |
| `DependencyTrack.SendPayload` | internal/postprocess/dependency_track/dependencyTrack.go:244-316 | the one upload that is received, if any: its project, parent, version, tags and payload; nil exactly when it was accepted and the last poll said processed; the nil project panics exactly when the chain is empty and the payload unzips |
| `DependencyTrack.PostProcess` | internal/postprocess/dependency_track/dependencyTrack.go:206-316 | skipped exactly when the message renders, only production is wanted, and the environment type label does not read "production"; only then is nothing created or sent in such a setting; projects change only through the chain, a failing chain uploads nothing, and else the outcome and upload are those of the second half |
| `DependencyTrack.UploadHangsUnderLastParent` | internal/postprocess/dependency_track/dependencyTrack.go:229-268 | the upload's parent is an active project with the last rendered parent name, itself under the one before |
| `DependencyTrack.EmptyChainIffNoParentTemplate` | internal/postprocess/dependency_track/dependencyTrack.go:35-54 | the parent chain is empty exactly when the parent template is |
| `Handshake.HandoverIsSound` | internal/postprocess/dependency_track/dependencyTrack.go:278-316 | one result at most, by a real hand-over; nil exactly when the last poll said processed; no close seen as a result; no send on a closed channel |
| `Handshake.ResultIsFinal` | internal/postprocess/dependency_track/dependencyTrack.go:311-316 | a returned result and the poll behind it never change |
| `Handshake.NeverStuck` | internal/postprocess/dependency_track/dependencyTrack.go:285-309 | until the goroutine is gone it has a step that brings it closer to the exit |
| `Handshake.PollDecides` | internal/postprocess/dependency_track/dependencyTrack.go:285-316 | the next poll or the timeout decides: a finished upload reaches the caller as nil, a failed poll and the timeout as an error |
| `Handshake.PollGoesOn` | internal/postprocess/dependency_track/dependencyTrack.go:285-309 | an upload still under way is polled again |
| `Handshake.ThreeStepsToExit` | internal/postprocess/dependency_track/dependencyTrack.go:278-309 | after the hand-over the goroutine ends with both channels closed and the result unchanged |
| `ScanEnv.ContainsRegex` | internal/controller/build_controller.go:285-298 | the loop finds a match exactly when one of the patterns matches |
| `ScanEnv.CopiedMeaning` | internal/controller/build_controller.go:216-226 | copied are nine names, and feature flags with something after the prefix, in any letter case |
| `ScanEnv.CopyBuildVars` | internal/controller/build_controller.go:222-226 | lookups give the last matching build-pod entry, else the base value |
| `ScanEnv.AddExtras` | internal/controller/build_controller.go:229-231 | extras win over everything, in any map order |
| `ScanEnv.GenerateScanEnv` | internal/controller/build_controller.go:162-244 | no images is an error; else the list is strictly sorted, every lookup gives the layered value, and each base variable that no extra replaces carries its own argument: namespace, docker host, build name, and the images, which splitting at the commas gives back |
| `ScanEnv.LayersMeaning` | internal/controller/build_controller.go:209-231 | every extra is in the list, and so is the last build-pod entry of each copied name that no extra has; nothing else but base variables |
| `ScanEnv.LessMeaning` | internal/controller/build_controller.go:233-242 | the order is by the first code unit that differs, a proper prefix first |
| `ScanEnv.ScanEnvUnique` | internal/controller/build_controller.go:233-242 | only one list meets that, so map order cannot show |
| `ScanEnv.BuildNeverOverridesBase` | internal/controller/build_controller.go:209-226 | a build pod never changes one of the four base variables |
| `EnvParser.ExtraEnv.ParseKV` | cmd/main.go:213-224 | an entry is stored or rejected as specified, and a rejected one stores nothing |
| `EnvParser.ExtraEnv.ReadAll` | cmd/main.go:225-277 | flags, then the non-blank entries of the variable, equal the specified parse |
| `EnvParser.EntryMeaning` | cmd/main.go:213-224 | an entry gives a name and value exactly when it is that legal name, '=' and that value with white space only around the name and after the value |
| `EnvParser.VariableMeaning` | cmd/main.go:269-277 | the variable's entries are the non-blank trimmed pieces between its commas |
| `EnvParser.LoadMeaning` | cmd/main.go:222-277 | reading fails exactly when some entry does not parse |
| `EnvParser.LookupIsLastWins` | cmd/main.go:222-277 | a key is stored exactly when some entry has it, with the value of the last such entry |
| `EnvParser.StoredNamesAreLegal` | cmd/main.go:212-222 | every stored key matches the name pattern |
| `EnvParser.RoundTripIff` | cmd/main.go:269-277 | writing a map as comma-joined entries and parsing gives it back if and only if names are legal and values have no comma and no trailing white space |
| `ScanPods.Cluster.KillExistingScans` | internal/controller/build_controller.go:249-271 | deletes the listed pods in order and stops at the first error |
| `ScanPods.Cluster.Reconcile` | internal/controller/build_controller.go:59-119 | equals the specified scan for every fault schedule |
| `ScanPods.ScanLeaves` | internal/controller/build_controller.go:91-103 | one reconcile under any faults only removes scanner pods or ends with the new one alone |
| `ScanPods.NeverTwoScanners` | internal/controller/build_controller.go:69-116 | over every run with up-to-date lists, never two scanner pods after a start with at most one |
| `ScanPods.CleanScan` | internal/controller/build_controller.go:69-116 | a scan without call errors ends with one scanner named after the build, the build pod labelled, both rejected by the predicate and no other pod changed, if and only if there are images, the build pod has labels and is no scanner, and the scanner name is free; it panics exactly when only the labels are missing |
| `ScanPods.FirstFaultDecides` | internal/controller/build_controller.go:59-119 | which call fails first, Get, either List, a deletion, Create or Update, decides what the scan leaves and how it ends |
| `ScanPods.NothingToScan` | internal/controller/build_controller.go:64-69 | a build pod that is gone or has not succeeded changes nothing, and is no error unless the Get fails |
| `ScanPods.SelectorMeaning` | internal/controller/build_controller.go:249-278 | the selector finds exactly the pods that carry every label a created scan pod gets |
| `ScanPods.FilterMeaning` | internal/controller/build_controller.go:302-330 | an update event counts exactly when the pod has a build name and no mark of a scan |
| `NamespaceTokens.GeneratedTokensValidate` | internal/tokens/jwt.go:17-70 | a generated token gives its details back under its own key and fails, with empty details, under any other |
| `NamespaceTokens.ValidateMeaning` | internal/tokens/jwt.go:30-70 | a token validates exactly when it was signed with the key and has all four claims, which are its details; which namespace a failing one still gives |
| `NamespaceTokens.TokenMeaning` | internal/controller/namespace_controller.go:118-138 | which label of the namespace becomes which claim |
| `NamespaceTokens.SecretStore.SweepSecrets` | internal/controller/namespace_controller.go:85-113 | the loop with its two flags equals the specified sweep, with deletions refused or applied without an answer |
| `NamespaceTokens.SecretStore.Reconcile` | internal/controller/namespace_controller.go:50-163 | one pass equals the specification with a fault at any call, before or after it took effect |
| `NamespaceTokens.PassSparesLeading` | internal/controller/namespace_controller.go:85-160 | whatever calls fail, a pass never touches a valid secret that precedes the first bad one |
| `NamespaceTokens.PassAddsOnlyToken` | internal/controller/namespace_controller.go:107-160 | nor does it change a secret it leaves, or add any but the new token |
| `NamespaceTokens.FailsBeforeCreating` | internal/controller/namespace_controller.go:50-113 | which Get, List or deletion fails first decides what a pass leaves: deletions run from the first bad secret on, and a lost answer hides that one took effect |
| `NamespaceTokens.FailsCreating` | internal/controller/namespace_controller.go:50-160 | with those calls succeeding, a failing creation leaves no secret or the new one, and matters only when no token was found |
| `NamespaceTokens.UntouchedUnlessLive` | internal/controller/namespace_controller.go:53-62 | a namespace that is gone or terminating changes nothing, and is no error unless the Get fails |
| `NamespaceTokens.NoLabelsNoToken` | internal/controller/namespace_controller.go:115-130 | without its three labels a namespace still loses its bad secrets, and it is an error exactly when a token had to be created |
| `NamespaceTokens.RotationReplacesAll` | internal/controller/namespace_controller.go:90-160 | after a change of the signing key one clean pass replaces all tokens by a new one |
| `NamespaceTokens.SweepKeepsLeading` | internal/controller/namespace_controller.go:87-113 | exactly the secrets before the first bad one stay, and when `foundItem` ends up set |
| `NamespaceTokens.PassLeaves` | internal/controller/namespace_controller.go:85-160 | what one clean pass leaves, in every case |
| `NamespaceTokens.EmptyAfterPassIff` | internal/controller/namespace_controller.go:96-115 | one clean pass leaves no token exactly when the first secret is bad and some listed one names this namespace |
| `NamespaceTokens.OnePassCanEmpty` | internal/controller/namespace_controller.go:96-115 | a concrete namespace that one clean pass leaves without any token |
| `NamespaceTokens.PassesConverge` | internal/controller/namespace_controller.go:85-160 | from any start two clean passes reach a non-empty set of validating tokens, and a third changes nothing |
| `NamespaceTokens.KeptTokensMatchIff` | internal/controller/namespace_controller.go:96-100 | after a clean pass all tokens name this namespace if and only if the leading valid ones did |
| `NamespaceTokens.ForeignTokenIsKept` | internal/controller/namespace_controller.go:96-100 | a concrete token of another namespace that a pass keeps |

## Left out

- `CanCompleteIff`: shows that a continuation exists, not that a fair schedule takes it; rounds and ticks under way end in it with refused calls, with a list limit of five which objects a tick sees is the server's choice, and an informer announces a revision again when it resyncs, at a time of its own.
- `NeverTwoScanners`: needs one worker and lists that show the current pods; deletion takes effect at once, without a grace period.
- `RetriesAreBounded`: counts rounds that start on accepted revisions; rounds on rejected ones (requeued after an error) are possible and are not limited by the code.
- ConfigMap payloads: processors are arbitrary, so what they are sent does not matter to the protocol.
- `GetWriteInfo`: template parsing and execution, gzip and base64 are function arguments.
- `RetrySucceeds`: for chains that create disjoint names; nothing is said about retries after two projects got one name.
- `UniqueIffDisjoint`: one chain for each worker, as for one ConfigMap; `SeparateNamesStayUnique` lets workers change chains, under a stronger condition.
- `ContainsRegex`: only the fixed literals and the one prefix pattern of the source's list, not regular expressions in general.
- `GeneratedTokensValidate`: a signature is the key it was made with; the encoding, a token string that does not parse at all, and a failing token generation are not part of this model.
- `Handshake`: polling intervals and the 300 second limit are events without durations.
- Kubernetes client and informer internals beyond versioned writes, a possibly stale cache and the work queue; the cron scheduler.
- Pod volumes, the container image and the docker host lookup of the scan pod; a build pod without containers.
- The HTTP endpoint, the message broker, metrics, TLS, logging and flag handling other than the extra scan variables.
