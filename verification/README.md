# A verified model of the kro service provider operator

This project models the operator that installs kro for a tenant (`Kro` objects on an onboarding cluster,
Flux objects on a platform cluster, secrets on a workload cluster) and proves what its reconcile passes
keep in every run: with any call failing at any point, deletions arriving in the middle of a pass, several
passes and the config propagation interleaved, and everybody else moving between two calls.

The model has three layers.

1. **A pass machine** (`Passes.dfy`). One pass of `SPReconciler.Reconcile`, with the `KroReconciler`
   methods below it, cut at its API calls: a pass rests at the call it is about to make, and `Step` is what
   the code does with the answer, up to its next call. `Versions`, `Statuses` and `Flux` hold the value
   functions it uses.
2. **The whole system** (`Worlds.dfy`, `Operator.dfy`). The stores of the clusters, which answers a call may
   get and what it changes, what tenants, Flux, the access provider and others may do in between, the work
   queue with its retries and timers, and the path of a ProviderConfig change from its reconciler through
   the channel into the cached config. A run is any sequence of enabled steps; nothing is assumed about
   scheduling. The theorems (`Safety` to `Witness`) are about all runs, or all reachable states.
3. **The code** (`Objects.dfy`, `Apis.dfy`, `Domain.dfy`, `Runtime.dfy`, `Notifier.dfy`). The reconcilers
   as classes with methods, in the source's order and with its loops, over heap objects with slices, maps and
   pointers. Every method is proved to make exactly the calls the machine is waiting for, with the payload the
   machine has, and to leave the object in memory as the machine has it, so that the theorems hold of this code:
   `Runtime.SPReconciler.Reconcile` follows the machine from its start to the outcome it returns. The cached config
   is one object that all passes share, and what a pass hands to its domain part may be written to, so that the
   deep copies are needed where the source makes them.

| files | subject |
|---|---|
| `Resources`, `Wrappers` | the API objects as values |
| `Versions`, `Statuses`, `Flux` | version lookup and URLs, status conditions, the three Flux specs |
| `Passes`, `Worlds`, `Operator`, `Traces` | pass machine, stores and environment, system and runs, replay of traces |
| `Decisions` | which answer leads to which wait, report, register and message |
| `Safety` | no orphans, tenant isolation, no foreign Flux objects |
| `Guards`, `Reports` | what a pass's trace tells: the deletion guard, the loop of Delete, when Ready is reported, when the status is written |
| `Phases`, `Verdicts` | the phase a pass leaves, read off its trace; which generation a reported readiness is about |
| `Teardown`, `Rounds` | teardown is irreversible, and terminates |
| `Integrity`, `Convergence`, `Copies` | referential integrity, failure confluence, steady state, what is replicated from where |
| `Coherence`, `Wakeups` | the cached config, lost updates, wake-ups |
| `Access`, `TwoRuns` | the cluster access contract, independence of deletion from the config |
| `Findings` | expectations the code does not meet, with the exact condition under which they hold |
| `Playbook`, `Installing`, `Witness` | example runs: one for a completed installation, and one for each expectation that a run breaks |
| `Objects`, `Apis`, `Domain`, `Runtime`, `Notifier` | the imperative code on the heap |

## Assumptions

- Reads are linearizable: a read answers with the store as it is at that moment (or fails). Any call but the
  load of the cached config may fail. `CreateOrUpdate` is a get, a comparison and a write that may fail or conflict.
- Only this operator creates the three Flux objects, and nobody else touches its finalizer. Others may edit
  their specs or ask for their deletion; the theorems of `Integrity` and `Convergence` are about runs in which
  nobody does, nor drops a secret this operator has replicated (`Untampered`).
- Access requests are created only by the provider's `Reconcile` and removed only after its `ReconcileDelete`
  has marked them. `Reconcile` reports no delay only once all that is required is granted with a secret;
  `ReconcileDelete` reports no delay only when all are gone. Delays are not negative (`Findings.OnlyNegativeDelaySkipsDelete`
  says what else would happen). A granted request keeps its secret reference.
- A deletion timestamp is never unset, and the server adds no finalizer to an object that is being deleted. An
  object that carries a resource version cannot be created anew, so the create branch of the finalizer update fails.
- `StableMCPNamespace` is injective (it may also fail).
- Which workload cluster the access for a Kro leads to is fixed in a run (`Worlds.Home`), and somebody else's decision:
  Kros may share one, and then share the fixed names in its kro-system namespace (`Safety.SharedClusterIsOverwritten`).
- The server counts up the generation of a Flux object with every change of its spec and with its deletion, and
  Flux's conditions name no generation that is yet to come.
- At most one pass per key is in flight; the work queue retries after an error and keeps a timer for a requeue.
  The channel is first in, first out, and its handler deals with one notification at a time. A restart
  forgets passes, timers, cache and channel, and enqueues everything.
- A pass stamps all its condition changes with one time.

## Model

| member | source | states |
|---|---|---|
| Versions.FirstOffer | api/v1alpha1/providerconfig_types.go:156-159 | the walk stops at the first entry that offers the version, if any does |
| Versions.NothingIsFound | api/v1alpha1/providerconfig_types.go:152-168 | the lookup succeeds iff some entry offers the version; else the error says that there is no config, that nothing is offered, or all that is, in order |
| Versions.MessageNamesVersions | api/v1alpha1/providerconfig_types.go:164-168 | the message about a missing version contains the version asked for and every one on offer |
| Versions.ResolveIsLookup | api/v1alpha1/providerconfig_types.go:152-168 | with unique keys the walk is a map lookup: it finds an entry iff that entry is in the list and offers the version |
| Versions.ResolveIgnoresOrder | api/v1alpha1/providerconfig_types.go:152-168 | two orders of the same unique entries resolve alike |
| Versions.EnsureOCIScheme | api/v1alpha1/providerconfig_types.go:180-185 | the result carries the oci scheme, and what follows the scheme, or all of it, is the given URL |
| Versions.ChartURLIsNormal | api/v1alpha1/providerconfig_types.go:172-185 | the default comes out iff no URL, or an empty one, is configured, else the configured one, with the scheme put in front iff it is missing; the result carries the scheme, and normalising again changes nothing |
| Statuses.MarkAgrees | pkg/spruntime/status.go:25-80 | every helper keeps one Ready condition, phase and observed generation coherent |
| Statuses.MarkLeavesOthers | pkg/spruntime/status.go:25-80 | no condition of another type comes, goes or changes |
| Statuses.SteadyStateMovesTransitionTime | internal/controller/kro_controller.go:96-184 | Ready set False and True again within a pass moves the transition time of a condition that was True all along |
| Flux.ManagedSetIsConserved | internal/controller/kro_controller.go:147-310 | the objects written, reported while installing or terminating, and deleted are the same three distinct keys, and tenants share none; terminating, each is reported in the given phase, without message |
| Flux.ResourceStatusTells | internal/controller/kro_controller.go:315-323 | Ready iff the first Ready condition is True; else Progressing, with the message of that condition, or none if there is none |
| Flux.ReportTells | internal/controller/kro_controller.go:144-181 | each of the three resources is reported by what the conditions of that very object tell |
| Flux.SpecsAreAsDescribed | internal/controller/kro_controller.go:514-640 | the chart source has the configured URL, tag and secret; the main release skips CRDs, takes the values and mounts the kubeconfig; the CRDs release replaces CRDs, keeps nothing else and takes no values |
| Flux.SpecsDetermineInputs | internal/controller/kro_controller.go:514-640 | two specs are equal iff what they were made from is, two URLs being alike iff they mean the same reference; both releases refer to the tenant's own chart source and never coincide |
| Passes.AfterGetKro | pkg/spruntime/spreconciler.go:201-211 | a pass ends here without error only for a missing or ignored object; else it holds the object as read, and its status as the snapshot |
| Passes.AfterPatchAnnotation | pkg/spruntime/spreconciler.go:213-222 | goes on only with the object the patch returned, whose status is the snapshot; never ends without error |
| Passes.AfterLoadConfig | pkg/spruntime/spreconciler.go:230-242 | goes on iff a config was loaded, creating iff the object is not deleting; else it ends with an error, reporting Progressing |
| Passes.AfterGetForFinalizer | pkg/spruntime/spreconciler.go:315-321 | to access iff the finalizer was found, to the update iff it was missing, to the create iff the object was; else an error |
| Passes.AfterUpdateFinalizer | pkg/spruntime/spreconciler.go:315-321 | goes on to access iff the server answered with the object it stored, and with that object; else an error |
| Passes.AfterCheckRequest | pkg/spruntime/spreconciler.go:337-355 | access is given up iff this answer shows the request lost; it leaves only with an error, reporting Progressing |
| Passes.WithClusters | pkg/spruntime/spreconciler.go:276-331 | a deletion skips the domain logic only with a non-zero delay; only a creation waits |
| Passes.AfterReconcileAccess | pkg/spruntime/spreconciler.go:360-372 | a creation goes on only without delay; a deletion that is asked to wait goes on to the domain logic, its handles unchanged; only a missing answer is an error |
| Passes.AfterGetCluster | pkg/spruntime/spreconciler.go:373-405 | the control plane handle is present iff the provider returned one; a missing cluster ends a creation without error, and never a deletion |
| Passes.AfterGetRequest | pkg/spruntime/spreconciler.go:382-405 | ends with an error iff the access request could not be read; both handles stay as they are |
| Passes.BeginCreate | internal/controller/kro_controller.go:106-111 | installing begins, with the resolved entry, iff the version is on offer; otherwise the pass ends without error, to poll |
| Passes.AfterLook | internal/controller/kro_controller.go:113-140 | a Flux object is written iff it is missing or differs, as of the version read; success means that nothing is left; unrelated registers stay |
| Passes.AfterWrite | internal/controller/kro_controller.go:113-140 | ends with an error iff the write was not answered; what a Flux write returned is recorded for the report |
| Passes.Conclude | internal/controller/kro_controller.go:144-189 | Ready is reported iff the first Ready condition recorded of each of the three objects is True, else Progressing |
| Passes.ConclusionTells | internal/controller/kro_controller.go:144-189 | each of the three resources carries the phase and message that the conditions recorded of that very object tell; the pass comes back with the next poll |
| Passes.AfterResolveNamespace | internal/controller/kro_controller.go:97-216 | a deletion goes to the guard iff it has a control plane handle, else straight to the first object |
| Passes.AfterCountRGDs | internal/controller/kro_controller.go:203-216 | teardown begins iff the list is empty or the kind unknown; anything else ends the pass, without error only if there are definitions |
| Passes.AfterDeleteObject | internal/controller/kro_controller.go:234-238 | the Get of the same object follows iff the deletion request was accepted or the object was gone already; else an error, reporting Terminating |
| Passes.AfterConfirmGone | internal/controller/kro_controller.go:239-253 | anything but NotFound makes the loop remember that something lingers; after the third object, access is given up iff nothing lingers |
| Passes.AfterRevokeAccess | pkg/spruntime/spreconciler.go:293-304 | the finalizer goes iff the revocation was answered without delay; a failed one is an error, reporting Terminating |
| Passes.AfterRemoveFinalizer | pkg/spruntime/spreconciler.go:303-309 | ends without error iff the server accepted the update |
| Passes.AfterPatchStatus | pkg/spruntime/spreconciler.go:259-266 | an outcome that had failed never turns into a success |
| Decisions.AnnotationsDecide | pkg/spruntime/spreconciler.go:197-222 | exactly when a pass ends at once, consumes the trigger, goes on to its config or fails |
| Decisions.RequestsDecide | pkg/spruntime/spreconciler.go:337-355 | exactly when access is given up, the second request is looked at, or access is reconciled |
| Decisions.AccessDecides | pkg/spruntime/spreconciler.go:360-405 | a creation waits as long as the provider says, and ten seconds for a missing cluster |
| Decisions.AnswersFillClusters | pkg/spruntime/spreconciler.go:373-405 | a handle and a secret name are recorded of the cluster that was asked for and of no other, and only where there are two is the second asked for |
| Decisions.DefinitionsDecide | internal/controller/kro_controller.go:203-273 | none, or an unknown kind, lets the teardown begin, some hold it up for ten seconds, anything else is an error; all three objects are reported to be terminating unless it is |
| Decisions.AbsenceDecides | internal/controller/kro_controller.go:239-253 | whatever lingers brings the pass back in ten seconds; else access is given up with nothing left in the report |
| Decisions.RevocationDecides | pkg/spruntime/spreconciler.go:293-310 | a revocation takes as long as the provider says; after the finalizer only the poll interval is left |
| Decisions.StatusWriteDecides | pkg/spruntime/spreconciler.go:259-266 | the outcome is an error iff it was one before, or the write failed for another reason than a missing object |
| Decisions.HelpersSay | pkg/spruntime/status.go:25-80 | which status, reason and message each helper leaves in the first Ready condition, at the present generation |
| Decisions.MarkKeepsTime | pkg/spruntime/status.go:25-80 | the transition time stays iff the status of the condition does, and is else that of the pass |
| Decisions.MissingVersionSays | internal/controller/kro_controller.go:106-111 | a pass for a version that is not on offer leaves the condition False with the message that lists the others |
| Safety.NoOrphans | pkg/spruntime/spreconciler.go:270-332 | in every reachable state: while a Flux object exists so do the finalizer and all access requests, none being revoked; without the finalizer there is no Flux object and no access request |
| Safety.PassesAreIsolated | internal/controller/kro_controller.go:93-640 | no call of one Kro's pass changes anything on the platform that belongs to another Kro, nor anything on that one's workload cluster unless they share it |
| Safety.SharedClusterIsOverwritten | internal/controller/kro_controller.go:426-469 | writing one Kro's kubeconfig replaces another's, where they differ, iff both were placed on the same workload cluster |
| Safety.OnlyManagedObjects | internal/controller/kro_controller.go:220-640 | every Flux object in any run is one that Delete removes, of a Kro that has its finalizer |
| Guards.DeletionIsGuarded | internal/controller/kro_controller.go:203-238 | every deletion request is preceded in its pass by an empty list or a missing handle; a pass that sees definitions or fails to list takes nothing away |
| Guards.RevocationIsEarned | internal/controller/kro_controller.go:232-253 | access is revoked only if all three Gets said NotFound, or access was lost at the start, and then all three objects are absent at once; a Get that failed or found something never counts |
| Reports.StatusesAgree | pkg/spruntime/status.go:25-80 | in every reachable state a stored status has one Ready condition, phase Ready iff it is True, and one observed generation |
| Reports.ReadyIsEarned | internal/controller/kro_controller.go:144-253 | a pass about to report Ready has seen each of the three objects with a first Ready condition that is True, in its own calls, or, deleting, all three objects are gone |
| Phases.PhaseIsDecided | pkg/spruntime/spreconciler.go:197-332 | in every run, the phase a pass leaves is the one that its last call and its answer decide, given what it had read and seen |
| Phases.DeletingIsNotAlwaysTerminating | internal/controller/kro_controller.go:251-253 | a pass leaves a Kro in phase Terminating iff the call that ended it does so: not without a config, after an unclear access check, while waiting for revocation with all objects gone, or if the server says otherwise |
| Phases.PendingAccessKeepsStatus | pkg/spruntime/spreconciler.go:323-330 | a create pass that ends without error reports on the generation it saw iff it reached the domain logic or the status was up to date; it does not reach it iff it waits for access, and then leaves the status as read |
| Verdicts.ReadyIsCurrentIfFoundSo | internal/controller/kro_controller.go:144-188 | a pass that reports Ready had each object back with the wanted spec and a first Ready condition that is True, which is of the object's present generation iff the pass found it so, never if it wrote it |
| Reports.NothingIsLeftWhenReleased | pkg/spruntime/spreconciler.go:293-309 | once a pass has had the finalizer removed, and until it is over, no Flux object and no access request of the Kro exists |
| Reports.WriteBackIsExact | pkg/spruntime/spreconciler.go:222-266 | in every run, a pass that is over has tried to patch the status iff it loaded the config and ends with another status than the one it read just before |
| Teardown.StepGoesForward | pkg/spruntime/spreconciler.go:270-355 | once a Kro is being torn down, no step of anybody brings an object, an access request or the finalizer back, or undoes a deletion |
| Teardown.NothingComesBack | pkg/spruntime/spreconciler.go:272-355 | the same over any stretch of a run: teardown is irreversible and access is never renewed |
| Teardown.RevokedIsTearingDown | pkg/spruntime/spreconciler.go:337-355 | in every reachable state in which an access request is being revoked, the Kro is being torn down, so that nothing comes back from there on |
| Rounds.RoundMakesProgress | pkg/spruntime/spreconciler.go:270-310 | a pass that ends without error, once its deletions are completed, makes the measure of what is left strictly smaller |
| Rounds.TeardownTerminates | pkg/spruntime/spreconciler.go:270-310 | as many such rounds as the measure says, at most eleven, remove the finalizer, and then nothing is left |
| Integrity.MainComesLast | internal/controller/kro_controller.go:113-140 | the main release is the last thing written, once |
| Integrity.SourceComesThird | internal/controller/kro_controller.go:113-118 | the chart source is written right after its pull secret has been replicated |
| Integrity.ReleaseIsPrepared | internal/controller/kro_controller.go:124-140 | the plan replicates whatever the main release refers to before it, or aborts before it |
| Integrity.ReferentialIntegrity | internal/controller/kro_controller.go:113-468 | in every state of every untampered run: the URL of a chart source carries the scheme, and it finds its pull secret; a main release finds its namespace, the secret that it mounts, every image pull secret that its values name and, until the Kro is deleted, its chart source |
| Integrity.ReleasesDoTheirPart | internal/controller/kro_controller.go:536-640 | in every state of every untampered run: a release creates or replaces CRDs, and keeps only them, iff it is the CRDs release; it skips them, and mounts the kubeconfig, iff it is the main one |
| Copies.SecretsFollowTheirSources | internal/controller/kro_controller.go:346-469 | for every secret that the plan puts, what it reads last before: the secret of the same name beside the operator, or, right before the releases, the control plane's access secret |
| Copies.CopiesAreFaithful | internal/controller/kro_controller.go:346-469 | in every run, what a pass is about to put is what its last read was answered with: as it is, type included, for a pull secret; of the access secret the kubeconfig alone, as an opaque secret |
| Copies.CopiesAreStored | internal/controller/kro_controller.go:441-463 | once the write is answered, that copy is in the store at its place |
| Copies.NamespaceComesFirst | internal/controller/kro_controller.go:395-449 | no secret is put on the workload cluster before the plan has seen to its namespace |
| Copies.CopiesFindNamespace | internal/controller/kro_controller.go:395-449 | in every untampered run, a pass at the write of such a secret finds the namespace in place |
| Convergence.FailureConfluence | internal/controller/kro_controller.go:93-140 | after any history, an error-free create pass leaves the chart source with the URL, tag and secret of the resolved version entry, the main release with its values and the workload access secret, the CRDs release with the control plane's; both names were read in this pass |
| Convergence.SteadyStateWritesNothing | internal/controller/kro_controller.go:471-640 | with the same inputs the specs stay, and, where the server stores them as sent, no Flux write is ever issued again |
| Coherence.CacheIsCoherent | pkg/spruntime/pcreconciler.go:64-79 | a cached config is the one that was present and not going at the place in the history where it was read; drained and observed, the cache is nil iff the config is gone or going, else the current one; a failed read inserts nil with its retry still due |
| Coherence.CacheNeverGoesBack | pkg/spruntime/spreconciler.go:418-428 | short of a restart, what is cached later was present and not going at the same or a later place in the config's history |
| Wakeups.NeverAsleep | pkg/spruntime/spreconciler.go:197-257 | with positive poll intervals every Kro that is not ignored has a wake-up in every state |
| Wakeups.QuietEndsAreRight | pkg/spruntime/spreconciler.go:197-257 | the only ends with neither error nor delay are "not found" and "ignore" |
| Wakeups.NoLostUpdate | pkg/spruntime/spreconciler.go:418-486 | while no listing fails, every Kro that is not ignored is pending, in flight under the cached config, or was last completed under it |
| Access.AccessIsComplete | pkg/spruntime/spreconciler.go:360-407 | a create pass reaches the domain logic with every handle required; a workload handle implies the other; then only unparsable values abort the plan and the workload access request has a secret |
| Access.DeletionNeverWaitsForAccess | pkg/spruntime/spreconciler.go:278-292 | without requireAll, access ends in an error or goes on with no delay, so Delete is never skipped while access is live |
| Access.PlanNeverAborts | internal/controller/kro_controller.go:380-429 | the errors for a nil workload cluster cannot occur when there is one |
| TwoRuns.DeletionIgnoresConfig | internal/controller/kro_controller.go:193-254 | two teardown passes that loaded any two configs, given the same world, answers and moves of others, calls of other Kros' passes included, leave the same world at the same call and differ in nothing but the fallback requeue |
| Findings.ReadinessIgnoresGenerations | internal/controller/kro_controller.go:315-323 | readiness does not depend on observed generations |
| Witness.ReadyIsStale | internal/controller/kro_controller.go:315-323 | some run ends with Ready reported of a chart source just written, by a condition of the generation before |
| Findings.GuardNeedsHandle | internal/controller/kro_controller.go:203-216 | the definitions are counted iff there is a control plane handle |
| Findings.WaitingForAccessSkipsGuard | pkg/spruntime/spreconciler.go:366-371 | a deletion told to wait for access goes to the first object, however many definitions there are |
| Witness.DefinitionsCanBeIgnored | pkg/spruntime/spreconciler.go:366-371 | some run, with a workload cluster, comes to the first deletion with three objects in place, access granted and a definition left, and its pass has never counted |
| Witness.KroGoneDefinitionLeft | internal/controller/kro_controller.go:203-253 | and goes on to remove the three objects, the access and the Kro, the definition still left and never counted in that pass |
| Findings.OnlyNegativeDelaySkipsDelete | pkg/spruntime/spreconciler.go:283-292 | with access to the control plane, and with or without a workload cluster, Delete is skipped iff the delay was negative |
| Witness.DeletingKroIsReady | internal/controller/kro_controller.go:251-253 | some run ends a pass with a Kro that is being deleted reported as Ready |
| Findings.NothingHappensWithoutConfig | pkg/spruntime/spreconciler.go:230-234 | a pass goes on iff a config is cached; else it changes no store but the Kro's status |
| Findings.SecretsAreNeverRemoved | internal/controller/kro_controller.go:220-253 | no call of any pass removes a secret or a namespace |
| Findings.FailedListingLosesUpdate | pkg/spruntime/spreconciler.go:467-479 | a notification whose listing fails, whatever others do between receipt and failure, reaches exactly the Kros that are then queued, backing off, in a pass yet to load its config, or have loaded it since the receipt |
| Witness.UpdateIsLost | pkg/spruntime/spreconciler.go:467-479 | some run ends with a Kro that is wanted, neither pending nor in flight, and last completed under another config than the cached one |
| Installing.Install | internal/controller/kro_controller.go:93-190 | from any state with all it needs, an undisturbed create pass for a version without secrets installs it: every object a new generation iff its spec differs, conditions as they were |
| Witness.InstallationCompletes | internal/controller/kro_controller.go:93-190 | some run completes an installation: a pass that reached the domain logic ends without error, the three objects new and as the version asked for describes them |
| Findings.OnlyPositiveIntervalsPoll | pkg/spruntime/spreconciler.go:253-256 | a pass without a wait of its own comes back iff no interval is configured, or a positive one |
| Objects.CopySlice | api/v1alpha1/zz_generated.deepcopy.go:91-97 | an equal slice in a cell of its own; nil stays nil |
| Objects.KroObject.DeepCopy | api/v1alpha1/zz_generated.deepcopy.go:14-38 | an equal object that shares no cell with the original: annotations, finalizers, conditions and resources are its own |
| Objects.KroObject.WithoutOperation | pkg/spruntime/spreconciler.go:212-215 | a copy without the trigger, the original keeping it although deleting from a map works in place |
| Objects.KroObject.AddFinalizer | pkg/spruntime/spreconciler.go:315-318 | the finalizer is appended iff it was missing, which is told; the list is else as it was |
| Objects.KroObject.RemoveFinalizer | pkg/spruntime/spreconciler.go:303-304 | the finalizer is gone, the others stay, in their order |
| Objects.KroObject.SameStatus | pkg/spruntime/spreconciler.go:260-262 | true iff the two statuses are equal as values |
| Objects.KroObject.FindCondition | pkg/spruntime/status.go:26-32 | the first condition of that type |
| Objects.KroObject.SetStatusCondition | pkg/spruntime/status.go:26-32 | changes the condition of that type in its slot, keeping its transition time unless the status changes, or appends in a new slice |
| Objects.KroObject.StatusProgressing | pkg/spruntime/status.go:25-35 | the object as marked progressing, and nothing else |
| Objects.KroObject.StatusReady | pkg/spruntime/status.go:38-48 | the object as marked ready, and nothing else |
| Objects.KroObject.StatusTerminating | pkg/spruntime/status.go:51-61 | the object as marked terminating, and nothing else |
| Objects.KroObject.StatusTerminatingMessage | pkg/spruntime/status.go:65-67 | the same with a message |
| Objects.KroObject.StatusTerminatingWithReason | pkg/spruntime/status.go:70-80 | the same with a reason and a message |
| Objects.CopyVersion | api/v1alpha1/zz_generated.deepcopy.go:111-123 | an equal entry whose pointers lead to new cells |
| Objects.CopyVersions | api/v1alpha1/zz_generated.deepcopy.go:211-219 | equal entries, none of whose cells is shared |
| Objects.ConfigObject.DeepCopy | api/v1alpha1/zz_generated.deepcopy.go:152-226 | an equal config that shares no cell, pointers behind pointers included |
| Objects.ConfigObject.PollInterval | api/v1alpha1/providerconfig_types.go:144-149 | the configured interval, or the default |
| Objects.ConfigObject.ResolveVersion | api/v1alpha1/providerconfig_types.go:152-168 | the entry that the lookup finds, or exactly what is offered instead, in order |
| Domain.KroReconciler.CountResourceGraphDefinitions | internal/controller/kro_controller.go:259-273 | an unknown kind counts as none, other errors are reported; the machine takes the result the same way |
| Domain.KroReconciler.DeleteAndGet | internal/controller/kro_controller.go:232-243 | one turn of the loop as the machine makes it |
| Domain.KroReconciler.DeleteObjects | internal/controller/kro_controller.go:232-253 | the loop ends with an error, with a requeue, or ready to give up access, the object in memory in step |
| Domain.KroReconciler.AwaitDefinitions | internal/controller/kro_controller.go:203-216 | the guard lets the deletion through or ends the pass with its message and requeue |
| Domain.KroReconciler.Delete | internal/controller/kro_controller.go:193-254 | the whole of Delete follows the machine |
| Domain.KroReconciler.ReplicateChartPullSecret | internal/controller/kro_controller.go:346-373 | carries out exactly the plan's tasks for the chart pull secret, none for an empty name |
| Domain.KroReconciler.CopyImagePullSecrets | internal/controller/kro_controller.go:402-421 | the loop copies every named secret, in order, or stops at the first error |
| Domain.KroReconciler.ReplicateImagePullSecrets | internal/controller/kro_controller.go:380-421 | carries out exactly the plan's tasks for the image pull secrets |
| Domain.KroReconciler.ReplicateMCPKubeconfig | internal/controller/kro_controller.go:426-469 | carries out exactly the plan's tasks for the kubeconfig, what is written being the machine's register, of which Copies.CopiesAreFaithful tells |
| Domain.KroReconciler.CreateOrUpdateFlux | internal/controller/kro_controller.go:471-640 | writes the desired spec only if the stored one differs or is missing, and returns the object's conditions |
| Domain.KroReconciler.CreateOrUpdateOCIRepository | internal/controller/kro_controller.go:471-534 | the chart source gets the spec that its version entry describes, as Flux.SpecsAreAsDescribed spells out |
| Domain.KroReconciler.CreateOrUpdateMCPCRDsHelmRelease | internal/controller/kro_controller.go:581-640 | the CRDs release gets its spec, with the control plane's access secret |
| Domain.KroReconciler.GetWorkloadFluxConfig | internal/controller/kro_controller.go:325-341 | the name of the secret in the workload cluster's access request |
| Domain.KroReconciler.CreateOrUpdateHelmRelease | internal/controller/kro_controller.go:491-579 | the main release gets the values and the workload cluster's access secret, after which the pass concludes |
| Domain.KroReconciler.Install | internal/controller/kro_controller.go:113-140 | the fallible steps follow the plan in its order; the first error ends the pass with its message |
| Domain.KroReconciler.InstallAndReport | internal/controller/kro_controller.go:113-189 | the three reported resources and the phase are those the machine concludes with |
| Domain.KroReconciler.CreateOrUpdate | internal/controller/kro_controller.go:93-190 | the whole of CreateOrUpdate follows the machine |
| Runtime.SPReconciler.AreAccessRequestsInDeletion | pkg/spruntime/spreconciler.go:337-355 | lost iff a request is missing or deleting; an unclear answer is an error |
| Runtime.SPReconciler.Clusters | pkg/spruntime/spreconciler.go:360-407 | the handles, the wait and the error that the machine goes on with; without requireAll there is no wait |
| Runtime.SPReconciler.AddFinalizer | pkg/spruntime/spreconciler.go:315-321 | the object as re-read, with the finalizer stored before the pass goes on |
| Runtime.SPReconciler.GiveUpAccess | pkg/spruntime/spreconciler.go:293-310 | access first, then the finalizer, or an error or a requeue |
| Runtime.SPReconciler.DeleteManaged | pkg/spruntime/spreconciler.go:277-292 | the domain's part of a deletion follows the machine |
| Runtime.SPReconciler.Delete | pkg/spruntime/spreconciler.go:270-310 | the whole of delete follows the machine |
| Runtime.SPReconciler.CreateOrUpdate | pkg/spruntime/spreconciler.go:314-332 | the whole of createOrUpdate follows the machine |
| Runtime.SPReconciler.UpdateStatus | pkg/spruntime/spreconciler.go:259-266 | a patch is attempted iff the status differs from the snapshot; a missing object is no error |
| Runtime.SPReconciler.ReconcileLoaded | pkg/spruntime/spreconciler.go:230-257 | what the pass returns is what the machine leaves with, the snapshot untouched; the shared cached config still stands for what was loaded, although the domain part may write to what it is handed |
| Runtime.SPReconciler.Fetch | pkg/spruntime/spreconciler.go:200-222 | nothing to do for a missing or ignored object; else the object as read |
| Runtime.SPReconciler.Heed | pkg/spruntime/spreconciler.go:204-222 | an ignored object ends the pass, a trigger is consumed first, and otherwise the object stays as read |
| Runtime.SPReconciler.ConsumeTrigger | pkg/spruntime/spreconciler.go:210-221 | the patch sent is the removal of the annotation, computed against an original that still has it |
| Runtime.SPReconciler.Reconcile | pkg/spruntime/spreconciler.go:197-257 | one pass of the code is one run of the machine, with the same outcome; on return the cached config is as loaded, and if the finalizer was removed no Flux object or access request is left |
| Notifier.PCReconciler.Reconcile | pkg/spruntime/pcreconciler.go:64-79 | sends nil iff the config is gone, going or unreadable, else the config as it was when read, in a copy that shares no cell with anything older; only an unreadable one is an error, whose retry stays due |
| Notifier.ConfigHandler.EnqueueAllObjects | pkg/spruntime/spreconciler.go:467-486 | one request for every Kro that exists, none if the listing fails |
| Notifier.ConfigHandler.OnUpdate | pkg/spruntime/spreconciler.go:418-428 | the cache holds a copy of the oldest notification, all of whose cells are new; if the listing succeeds, every Kro to be reconciled is in the end queued, backing off, or in or past a pass under the new config |

## Left out

- Rounds.TeardownTerminates: progress is stated per round (a pass without error, then completed deletions); that such rounds keep happening is a matter of scheduling and of the other controllers.
- Wakeups.NoLostUpdate: holds until a listing fails; `Findings.FailedListingLosesUpdate` gives the exact loss.
- Wakeups.NeverAsleep: needs positive poll intervals; `Findings.OnlyPositiveIntervalsPoll` gives the exact condition.
- Convergence.SteadyStateWritesNothing: a server that fills in defaults would make the specs differ at every pass, and the same specs be written again; that is not modelled.
- Safety.PassesAreIsolated: says nothing of Kros that share a workload cluster; `Safety.SharedClusterIsOverwritten` does, of the kubeconfig; the Helm release, whose name is fixed too, is not modelled.
- Installing.Install: for one Kro with fixed names, of which it uses nothing, and for versions without secrets; it serves the example runs.
- Integrity.ReferentialIntegrity: says that the secrets are in place, not that they still hold what was copied, since their owners may change them at any time.
- Domain.KroReconciler.GetWorkloadFluxConfig: an access request without secret reference, which the source would dereference, ends the pass with an error; `Access.AccessIsComplete` shows that it does not occur.
- Domain.KroReconciler.CreateOrUpdateFlux: labels, annotations and the defaults a server adds to a spec are not modelled, so equality of specs is equality of what the operator sets.
- Objects.KroObject.SetStatusCondition: append always moves to a new slice, as with a slice that is full.
- Objects.KroObject.RemoveFinalizer: the finalizers that are kept move to a new slice.
- Objects.KroObject.DeepCopy: the API group and namespace of a reported resource are values rather than pointers, and labels are not modelled.
- Domain.KroReconciler.Delete: the config that Delete is handed, and ignores, is not passed to it here.
- Informer caches that lag behind the server: reads are linearizable here.
- The rate limits and the order of the work queue; a wake-up is due, not timed.
- The resource version that a status patch may carry as a precondition: such a patch may succeed in the model where the server would refuse it, and may fail at any time.
- The secret watcher and its handler: KroReconciler does not implement it.
- Parsing of Helm values: the names of the image pull secrets, or the error, are part of the values.
- The YAML of the post-renderers, of which the model has what they do: mount a named secret, or keep only CRDs.
- Wording of error messages beyond the list of offered versions, and the count in the message of a blocked deletion.
- The status of a ProviderConfig, metadata other than finalizer, deletion, generation, resource version and the operation annotation, and API group pointers in reported resources.
- What happens to replicated secrets and the workload namespace after deletion: no code removes them.
- Wiring in main.go, CRD installation, schemes, flags, TLS and logging.
