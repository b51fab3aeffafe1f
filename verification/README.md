# Verified model of the inference platform operator

The repository is a Kubernetes operator. Three level-triggered controllers (InferenceService,
Tenant, Model) and an admission layer act on one object store, under interleaving, failing
calls, write conflicts, a lagging informer cache and suppressed status writes. This project
models that behaviour in Dafny and proves what it keeps over whole runs.

`dafny verify dfyconfig.toml` checks everything.

## How the model is laid out

* **Status writer** (`Conditions`, `ConditionSlices`, `StatusWriter`): copy the conditions,
  upsert by type, compare positionally, write on difference. `ConditionSlices` has the Go
  slices over shared backing arrays, so the defensive copy matters; `StatusWriter` proves that
  suppressing writes refines always writing.
* **InferenceService control loop** (`ServiceStatusRules`, `ControlLoop`): a transition system
  with the API server's store, the informer cache, the work queue (dirty and delayed keys), and
  passes that advance one API call at a time. A reply may be a success or a loss, and a lost
  call may or may not have been applied. The operator may restart at any time. Whole-run theorems
  are in `SettledOrQueued` (nothing is forgotten), `JobSafety` (where Jobs come from),
  `ServiceShape` (what statuses look like), `WriteBound` (no livelock), `Convergence` and
  `LoopConvergence` (once edits stop, the loop comes to rest); `WitnessRuns` and `CalmRuns` have
  runs that reach the bounds and the quiet states and meet the hypotheses of convergence.
  `ReconcilePass` and `PassMeaning` treat one undisturbed pass, `PassOutcome` what it comes back
  with under any replies, `WatchMap` the Model watch.
* **The code as it runs** (`ServiceReconciler`, `TenantReconciler`, `ModelController`,
  `Admission`): classes with the in-memory object and the cluster, methods in program order,
  each proved against the functions that the theorems are about.
* **Tenants** (`TenantObjects`, `TenantProvisioning`, `TenantStatusRules`, `TenantIsolation`):
  the six children, two fail-fast stages and three independent ones, and what the written
  NetworkPolicies and RBAC objects mean when evaluated over every reachable store.
* **Admission** (`Admission`, `AdmissionChain`, `Decimal`) and **Jobs** (`Workload`, `Priority`).

## What is assumed

* `meta.SetStatusCondition` updates the first entry of a type in place or appends; the
  transition time moves on append or when the status flips; reason and message are overwritten.
  One clock reading serves all conditions of one status update.
* `controllerutil.CreateOrUpdate` is get, mutate, then create or update. `SetControllerReference`
  succeeds for the object's own reference. `resource.ParseQuantity` is a parameter. The capacity
  envelope is an arbitrary deterministic oracle; the shipped stub always answers "available".
* A status update reaches the store exactly when its resource version is the stored one; a
  resource version identifies one content of an object.
* The List call inside the map function succeeds.
* In the settled-or-queued and Job-safety theorems a cache delivery may show any object with an
  earlier resource version. Only where a theorem speaks of what the store once held
  (`OperatorJobsHadTheirDependencies`) or of the shape of statuses (`StatusesStayShaped`) must
  it be something the store held.
* The write bounds and `FrozenRunsConverge` start from a state in which Models and Tenants have
  been delivered and what the cache and the passes hold of a service lags at most in status
  (`Fresh`), and nobody but the operator creates or deletes Jobs; stored Jobs may be updated by
  anyone. The bounds allow lost calls and count them; `FrozenRunsConverge` has every call answered
  and assumes `Fair` of workers and informers.
* `LoopConverges` starts from the start of the operator instead. Every delivery of a service shows
  something the store held. Of workers and informers it assumes `Diligent`: queued keys are taken,
  passes finish, delays end, the cache in the end shows nothing older than any given moment, and no
  cached Job is taken away any more. `EditsStop` says from when on edits, Job creations and
  deletions by others and restarts have stopped and calls are answered; before that anything
  goes.
* In the signed-model chain the webhook and the controller read the same informer cache, as they
  share the manager's client (operator/internal/webhook/inference_service_webhook.go:72).
* In `TenantIsolation` everyone else leaves tenant labels of namespaces alone, writes no Role,
  RoleBinding or NetworkPolicy, and deletes a namespace only when its policy is gone and no pass of
  its tenant is in flight; `NamespaceLostUnderAPass` shows why. Passes of different tenants and
  other writers interleave call by call, and each call may fail, applied or not; there is one pass
  per tenant at a time, as the work queue guarantees.

## Plausible claims that are false of the code

Each has a lemma with the input that breaks it, next to the exact statement that does hold.

* "Ready False implies WorkloadReady is not True": `WorkloadReadyOutlivesReady`; it fails exactly
  as `WorkloadReadyOutlivesReadyExactlyWhen` says.
* "Stored messages are current": `MessagesCanBeStale`, `StaleVerificationMessage`; they are exactly
  as `MessagesTellTheTruthExactlyWhen`, `MessagesTellTheirErrorsExactlyWhen` and
  `MessageExplainsExactlyWhen` say of the three controllers.
* "TenantResolved is always current": `TenantLossGoesUnnoticed`; after a completed pass it is,
  `CompletedPassTellsTheTruth`.
* "WorkloadReady True means that there is a Job": `JobLossGoesUnnoticed`, and even a completed pass
  can leave it so; after a completed pass it does exactly as `WorkloadReadyExactlyWhen` says.
* "WorkloadReady True implies a Job of this service": `ForeignJobIsAccepted`; it is the
  service's own exactly as `OwnJobExactlyWhen` says.
* "QuotaApplied True implies the quota exists": `QuotaAppliedWithoutQuota`; it does exactly as
  `QuotaAppliedExactlyWhen` says.
* "NetworkPolicyReady True implies the tenant is isolated": `NetworkPolicyReadyWithoutPolicy`, and
  likewise for ServiceAccountReady and RBACReady; the object is there exactly as
  `WorkloadConditionsExactlyWhen` says.
* "A Ready Model has the digest of its spec": `ReadyWithStaleDigest`;
  `DigestIsCurrentExactlyWhen` gives the condition.
* "Three writes per service always suffice": `FiveWritesAreReached` is a run with five, because of
  `LaggingJobCacheFlipsWorkloadReady`; three suffice when every call is answered and no Create finds
  its Job already there (`SmoothWritesAreBounded`), five when every call is answered, and each lost
  Job call adds two, or one if it was lost just before the start (`WritesAreBounded`,
  `LostCallsCostTwoEach`).
* "Suppressing writes never shows": `LostRedundantWriteDiverges` in the status,
  `LostRedundantWriteLosesTheJob` in the Jobs; it shows exactly as
  `ServiceSuppressionRefinesExactlyWhen` says.
* "Classes are ordered as Kueue orders them, whatever the default": they are exactly for the
  non-negative defaults, `ClassOrderExactlyWhen`; only the API schema excludes the others.

Where code and other texts disagree the code is followed: the Kueue test
(operator/internal/controller/inference_service_kueue_test.go:144) expects a container "vllm"
for a CPU service, the code builds "placeholder" (operator/internal/scheduling/workload.go:193);
the comment on FirstDenial speaks of nine checks all passed to it
(operator/internal/admission/admission_decision.go:31-35), the code has four and stops at the
first denial.

## Model

| member | source | states |
|---|---|---|
| `SettledOrQueued.QuietServicesAreSettled` | operator/internal/controller/inference_service_controller.go:40-210 | Over every run of edits, deletions, cache deliveries, failing calls, write conflicts and restarts: a stored service with no queue entry, no pass in flight and no undelivered event has Phase Ready for its current generation, its dependency conditions and WorkloadReady True, a known profile, and a referenced Model that is Ready in the store now |
| `SettledOrQueued.RunKeepsInv` | operator/internal/controller/inference_service_controller.go:40-210 | The inductive invariant of every run: each stored service is waiting, or ahead of the cache, or in a pass whose snapshots agree with the cache, or settled |
| `SettledOrQueued.StepKeepsInv` | operator/internal/controller/inference_service_controller.go:156-209 | Each API call of a pass, answered in any way, keeps the invariant for its own service and all others |
| `SettledOrQueued.ModelDeliveryKeepsInv` | operator/internal/controller/inference_service_controller.go:339-392 | A Model event keeps the invariant because the map function wakes every cached service that references the Model |
| `SettledOrQueued.EnvironmentKeepsInv` | operator/internal/controller/inference_service_controller.go:378-392 | Writes by others, other deliveries, queue moves and restarts keep the invariant |
| `SettledOrQueued.TenantLossGoesUnnoticed` | operator/internal/controller/inference_service_controller.go:382-391 | Counterexample: Tenants are not watched, so a quiet service keeps TenantResolved True after its Tenant is deleted, even once the cache has seen it |
| `SettledOrQueued.JobLossGoesUnnoticed` | operator/internal/controller/inference_service_controller.go:382-391 | Counterexample: Jobs are not watched, so a quiet service keeps WorkloadReady True after its Job is deleted |
| `SettledOrQueued.ForeignJobIsAccepted` | operator/internal/controller/inference_service_controller.go:447-450 | Counterexample: a pass that finds a Job of another owner under its name reports WorkloadReady True for it and leaves it unchanged |
| `PassMeaning.OwnJobExactlyWhen` | operator/internal/controller/inference_service_controller.go:396-451 | After a completed pass the Job under the name of the service is its own if and only if it was before or, with none there, the service can run; for a service that can run: if and only if there was no Job or its own |
| `ControlLoop.StepFrame` | operator/internal/controller/inference_service_controller.go:40-210 | A step of a pass touches only its own key, and of the stored Jobs at most adds the one it builds |
| `WriteBound.WritesAreBounded` | operator/internal/controller/inference_service_controller.go:157-209 | With specs, Models and Tenants frozen and no Job created or deleted by others, any run, whatever the interleaving, lost calls, cache lag, conflicts and updates of stored Jobs by others, writes at most five times per service that was unsettled at its start, plus one per service whose Job call had just been lost, plus two per Job call lost in the run, although each status write re-enqueues its object |
| `WriteBound.SmoothWritesAreBounded` | operator/internal/controller/inference_service_controller.go:316-334 | When moreover every call is answered and no Create finds its Job already there, the bound is three writes per service that still lacked its status, its Job or WorkloadReady |
| `WriteBound.WritesArePaid` | operator/internal/controller/inference_service_controller.go:157-209 | At every point of a frozen run the writes so far plus the remaining potential of all services stay within the initial potential and two per Job call lost so far |
| `WriteBound.SmoothWritesArePaid` | operator/internal/controller/inference_service_controller.go:484-493 | The same accounting with the potential of three, when every call is answered and no Create finds its Job already there |
| `WriteBound.LaggingJobCacheFlipsWorkloadReady` | operator/internal/controller/inference_service_controller.go:436-437 | Why three is not enough in general: with the Job stored but not yet cached, an otherwise settled pass fails to create it again and stores WorkloadReady False |
| `WitnessRuns.FiveWritesAreReached` | operator/internal/controller/inference_service_controller.go:157-209 | The bound of five is reached: any new service that can run has, alone in its cluster, a frozen run with every call answered that writes five times |
| `WitnessRuns.LostCallsCostTwoEach` | operator/internal/controller/inference_service_controller.go:425-445 | The price of a lost call is reached, without end: for any service that can run and every n there is a frozen run from a state with nothing left to write that loses n Job calls and writes 2n times |
| `WriteBound.WritesAreTicks` | operator/internal/controller/inference_service_controller.go:334 | In a frozen run in which nobody else updates Jobs the resource version clock ticks exactly once per write |
| `WitnessRuns.QuietStatesAreReached` | operator/internal/controller/inference_service_controller.go:378-392 | From a fresh start of the operator with a new service that can run there is a run to a state in which the service is quiet |
| `LoopConvergence.LoopConverges` | operator/internal/controller/inference_service_controller.go:40-210 | Convergence of the whole loop: in every endless run from the start of the operator, with any edits, failures, conflicts, stale deliveries and restarts before, if from some point on nobody edits specs, Models or Tenants, creates or deletes a Job or restarts the operator and calls are answered, and workers and informers do their work, then from some point on the operator writes nothing and every service that can run is settled: Phase Ready for its generation, dependency conditions and WorkloadReady True; and each key whose service is gone or can run is in the end not requeued any more |
| `LoopConvergence.LoopBecomesFresh` | operator/internal/controller/inference_service_controller.go:378-392 | In such a run there comes a state in which Models and Tenants have been delivered and what the cache and the passes in flight hold of a service lags in status at most |
| `LoopConvergence.VersionsIdentify` | operator/internal/controller/inference_service_controller.go:334 | In every such run, edits included, two states that store a service under the same resource version store the same service |
| `Convergence.FrozenRunsConverge` | operator/internal/controller/inference_service_controller.go:40-210 | The core of it: an endless run that starts in such a fresh state, frozen and with every call answered, reaches a point from which the operator writes nothing and every service that can run is settled, and in the end no key is requeued whose service is gone or can run |
| `Convergence.StoreComesToRest` | operator/internal/controller/inference_service_controller.go:316-334 | An endless frozen run with every call answered has a last write |
| `Convergence.ServiceComesToRest` | operator/internal/controller/inference_service_controller.go:157-209 | Once the store rests, each service has nothing left to write, or had settled before and is not looked at any more |
| `Convergence.KeyIsDropped` | operator/internal/controller/inference_service_controller.go:47-49 | Once the store rests and the cache shows it, a key whose service is gone or can run is in the end not waiting any more |
| `CalmRuns.CalmRunsExist` | operator/internal/controller/inference_service_controller.go:378-392 | The hypotheses of convergence can be met: any new service that can run has such an endless run, calm from the start of the operator |
| `ReconcilePass.SecondPassIsSilent` | operator/internal/controller/inference_service_controller.go:157-209 | One completed pass against any sound store reaches a fixed point, and a second completed pass leaves the store exactly as it is |
| `ReconcilePass.AlonePassSettles` | operator/internal/controller/inference_service_controller.go:40-210 | A pass that runs undisturbed with every call answered leaves nothing to write for its service |
| `ReconcilePass.SettledPassIsSilent` | operator/internal/controller/inference_service_controller.go:316-334 | A pass over a service with nothing left to write changes nothing in the store |
| `PassMeaning.CompletedPassTellsTheTruth` | operator/internal/controller/inference_service_controller.go:40-210 | After a completed pass each dependency condition, Ready, the phase, the observed generation and the derived priority are exactly the facts of the store; a service that can run has WorkloadReady True; the Jobs gain BuildJob of a service that can run and had none, and change in no other way |
| `PassMeaning.WorkloadReadyExactlyWhen` | operator/internal/controller/inference_service_controller.go:156-187 | After a completed pass WorkloadReady is True if and only if the service can run or it was True before; and it then stands for a stored Job if and only if the service can run, the Job was there before, or WorkloadReady was not True before |
| `PassMeaning.CurrentMeansTruthful` | operator/internal/controller/inference_service_controller.go:93-155 | A status that updateStatus would leave alone says the truth about Model, Tenant, profile, capacity and priority, in both directions |
| `ServiceStatusRules.UpToDateIsTruthful` | operator/internal/controller/inference_service_controller.go:254-307 | A status that compares unchanged has each dependency condition True exactly when that check found no error |
| `ServiceStatusRules.AssessTells` | operator/internal/controller/inference_service_controller.go:57-155 | The four checks find fault exactly with a Model that is missing or not True under Ready, a missing Tenant, an unknown profile, and a Ready Model of a known profile without capacity, and say which |
| `PassMeaning.PassKeepsSpecs` | operator/internal/controller/inference_service_controller.go:334 | A pass changes nothing of a service but its status and resource version |
| `PassOutcome.RequeuedExactlyWhen` | operator/internal/controller/inference_service_controller.go:40-210 | Whatever the store, whatever the cache shows, and however the calls are answered: a Reconcile call asks to be requeued if and only if reading the service fails, or the service is there and a further read fails, a status write that is needed fails or conflicts, a dependency is missing, a Job call fails or Create finds a Job, or a workload write that is needed fails or conflicts |
| `PassOutcome.CompletedPassRequeuesExactlyWhen` | operator/internal/controller/inference_service_controller.go:47-49 | With every call answered and the cache up to date it asks so if and only if the service is there and cannot run: a deleted or a settled service is dropped |
| `PassOutcome.GoneIsDropped` | operator/internal/controller/inference_service_controller.go:47-49 | A pass that reads that its service is gone changes nothing at all and is not requeued |
| `PassOutcome.WorkloadReadyTellsTheJobCalls` | operator/internal/controller/inference_service_controller.go:180-209 | For a service that can run, with any Job cache and any replies to the Job calls: WorkloadReady is True afterwards if and only if these went well, otherwise False with the message of the call that failed, or as it was if False before for a Job error; and the Job is stored if and only if it was before or the Create took effect |
| `PassOutcome.MessagesTellTheTruthExactlyWhen` | operator/internal/controller/inference_service_controller.go:114-335 | After a pass whose reads and status update were answered the six messages say which Model, Tenant, profile or capacity is missing, and nothing otherwise, if and only if the status had to be written or they did so before |
| `JobSafety.JobsAreSafe` | operator/internal/controller/inference_service_controller.go:396-451 | In every reachable state every stored Job is unmodified since it appeared, and it was there initially, was written by someone else, or is BuildJob of the snapshots of one pass that read its service, then its Model Ready, then its Tenant present, each at its own moment, with a known profile |
| `JobSafety.EveryPassHasItsStory` | operator/internal/controller/inference_service_controller.go:57-193 | Every pass in flight has, in the history of the run, the ordered reads its current position implies; past the status update these saw all dependencies satisfied |
| `JobSafety.CreationIsVetted` | operator/internal/controller/inference_service_controller.go:396-437 | Every step that makes a Job appear belongs to a pass with such reads, and the Job is BuildJob of what was read |
| `JobSafety.OperatorJobsHadTheirDependencies` | operator/internal/controller/inference_service_controller.go:57-193 | If every delivery shows something the store once held, the service, the Ready Model and the Tenant behind an operator-made Job were once in the store |
| `ServiceShape.StatusesStayShaped` | operator/internal/controller/inference_service_controller.go:222-334 | In every reachable state every stored, cached and in-flight status is empty or has the six types in code order, optionally followed by WorkloadReady; the reason is determined by type and status, True means no message, and Ready, the four dependency conditions and the phase agree |
| `ServiceShape.ShapedTypesAreUnique` | operator/internal/controller/inference_service_controller.go:222-252 | In such a status no condition type occurs twice |
| `StatusShape.UpdateKeepsShape` | operator/internal/controller/inference_service_controller.go:222-327 | Upserting all types in order into an empty or shaped list gives a complete shaped list |
| `ServiceShape.WorkloadReadyOutlivesReadyExactlyWhen` | operator/internal/controller/inference_service_controller.go:170-178 | Once updateStatus has gone through, Ready False stands next to WorkloadReady True if and only if WorkloadReady was True before and the pass found a dependency unsatisfied |
| `ServiceShape.WorkloadReadyOutlivesReady` | operator/internal/controller/inference_service_controller.go:170-178 | Counterexample: after a pass that resolved everything and one that finds the Model gone, the stored status is Ready False next to WorkloadReady True |
| `StatusWriter.MessagesAreCurrentExactlyWhen` | operator/internal/controller/controller_helpers.go:247-257 | Once an update of any controller has gone through, the object carries every wanted condition with its message if and only if the write was issued or all of them were carried before |
| `ServiceSuppression.ServiceMessagesAreCurrentExactlyWhen` | operator/internal/controller/inference_service_controller.go:316-334 | Once updateStatus has gone through, all six stored messages are the wanted ones if and only if the status was not up to date or the first occurrences already carried those messages |
| `ServiceSuppression.MessagesCanBeStale` | operator/internal/controller/controller_helpers.go:252 | Counterexample: a pass stores that the Model is missing; when the Model then exists but is not ready, nothing is written and the stored message differs from the wanted one |
| `Conditions.PositionalComparisonExact` | operator/internal/controller/controller_helpers.go:247-257 | On any list, duplicates included, old and upserted copy compare equal if and only if the first occurrence of every upserted type already has that status and reason, and if and only if they are equal but for messages, transition times included |
| `ConditionSlices.Copied` | operator/internal/controller/inference_service_controller.go:222-225 | The copied slice has the same conditions in an array of its own |
| `ConditionSlices.SetStatusCondition` | operator/internal/controller/inference_service_controller.go:244-252 | Writing through the slice or appending gives the upsert of the old list; only the given backing array is touched |
| `ConditionSlices.StatusUnchanged` | operator/internal/controller/controller_helpers.go:247-257 | The early-exit loop decides equality of length, types, statuses and reasons position by position |
| `ConditionSlices.SetCond` | operator/internal/controller/inference_service_controller.go:227-252 | Each call of the closure extends the list of upserts applied to the original conditions by one |
| `ConditionSlices.UpsertFirstIsAll` | operator/internal/controller/inference_service_controller.go:254-307 | Setting the conditions one at a time amounts to the whole list of upserts |
| `StatusWriter.Lockstep` | operator/internal/controller/controller_helpers.go:244-257 | Over any sequence of updates the suppressing and the always-writing status writer keep objects that agree on everything, transition times included, but messages |
| `StatusWriter.WritesExactlyOnChange` | operator/internal/controller/controller_helpers.go:244-257 | At every point of such a run a write goes out exactly when the object of the always-writer would change beyond its messages |
| `StatusWriter.TransitionTimesAreExact` | operator/internal/controller/inference_service_controller.go:243-252 | Over any sequence of updates, suppressed or not, delivered or not, each condition has the status of the last delivered update of its type and the time of the update that started the current stretch of that status |
| `ServiceSuppression.ServiceWritesAreAttempts` | operator/internal/controller/inference_service_controller.go:212-335 | Both status writes of a service pass issue and want exactly what the suppressing writer does |
| `ServiceSuppression.ControlLoopPassSuppresses` | operator/internal/controller/inference_service_controller.go:156-187 | Whatever the replies, the status and the Job that the control loop pass leaves from a current snapshot are those of a suppressing pass that stops when its first write fails |
| `ServiceSuppression.ServiceSuppressionRefinesExactlyWhen` | operator/internal/controller/inference_service_controller.go:156-187 | Over any sequence of passes with the early return after a failed status write, with Job writes and deletions by others in between, the suppressing and the always-writing controller agree after every event on the Job and on the status but for messages if and only if no pass has resolved dependencies, an up-to-date status, a lost redundant status call and a Job to create or a workload condition to change |
| `ServiceSuppression.PassLockstep` | operator/internal/controller/inference_service_controller.go:156-187 | One pass each, with the same replies and cache view of the Job: equal in Job and, but for messages, in status before, they are so afterwards if and only if the pass does not diverge in that way |
| `ServiceSuppression.ServiceSuppressionRefines` | operator/internal/controller/inference_service_controller.go:212-335 | In particular they agree over every sequence in which no status call of a pass with resolved dependencies fails, error texts aside |
| `ServiceSuppression.LostRedundantWriteDiverges` | operator/internal/controller/inference_service_controller.go:165-168 | Counterexample: a lost redundant status call keeps the always-writer from storing WorkloadReady True, while the suppressing controller stores it |
| `ServiceSuppression.LostRedundantWriteLosesTheJob` | operator/internal/controller/inference_service_controller.go:165-187 | Counterexample: after a settled service has lost its Job, a lost redundant status call keeps the always-writer from creating it again, while the suppressing controller does; both statuses stay as they are |
| `ServiceSuppression.ServiceWritesExactlyOnChange` | operator/internal/controller/inference_service_controller.go:484-493 | As long as no pass has diverged, each of the two writes of a pass is issued exactly when the always-writer would change its status beyond messages |
| `TenantStatusRules.TenantSuppressionRefines` | operator/internal/controller/tenant_controller.go:94-138 | Over any sequence of Tenant passes, even with different error texts, the suppressing and the always-writing controller store the same status but for messages |
| `TenantStatusRules.TenantWritesExactlyOnChange` | operator/internal/controller/tenant_controller.go:131-137 | Each Tenant pass writes its status exactly when the always-writer would change it beyond messages |
| `ServiceStatusRules.StatusComparison` | operator/internal/controller/inference_service_controller.go:316-327 | The comparison in updateStatus holds exactly when every wanted condition is already there with status and reason and phase, priority and generation are current |
| `ServiceStatusRules.WorkloadComparison` | operator/internal/controller/inference_service_controller.go:474-489 | The comparison in updateWorkloadCondition holds exactly when WorkloadReady already has that status and reason |
| `ServiceStatusRules.WantedIsUpToDate` | operator/internal/controller/inference_service_controller.go:316-334 | Once updateStatus has stored its status it finds nothing more to write |
| `ServiceStatusRules.WorkloadEstablished` | operator/internal/controller/inference_service_controller.go:474-493 | Once updateWorkloadCondition has stored its condition it finds nothing more to write |
| `ServiceStatusRules.StatusKeepsWorkload` | operator/internal/controller/inference_service_controller.go:254-307 | updateStatus neither establishes nor destroys what WorkloadReady says |
| `ServiceStatusRules.WorkloadKeepsStatus` | operator/internal/controller/inference_service_controller.go:469-482 | updateWorkloadCondition neither establishes nor destroys that the rest of the status is current |
| `ServiceReconciler.Reconcile` | operator/internal/controller/inference_service_controller.go:40-210 | Run on a heap object against a cluster it leaves exactly the store, clock and requeue request of the control loop pass under the same call outcomes |
| `ServiceReconciler.UpdateStatus` | operator/internal/controller/inference_service_controller.go:212-335 | Reports a change exactly when the status was not up to date; the write obeys optimistic concurrency; on success the object in memory is the stored one |
| `ServiceReconciler.NewConditions` | operator/internal/controller/inference_service_controller.go:222-307 | The six conditions upserted in code order on a fresh copy; the old list is not altered |
| `ServiceReconciler.UpdateWorkloadCondition` | operator/internal/controller/inference_service_controller.go:453-495 | Writes exactly when WorkloadReady differs, under optimistic concurrency |
| `ServiceReconciler.ReconcileKueueJob` | operator/internal/controller/inference_service_controller.go:396-451 | Get, then Create when absent, with every failure path, equals the Job part of the control loop pass |
| `ServiceReconciler.ReconcileResolved` | operator/internal/controller/inference_service_controller.go:156-209 | Everything after the three reads equals the rest of the control loop pass |
| `ServiceReconciler.ReconcileRead` | operator/internal/controller/inference_service_controller.go:55-112 | A failed read of Model or Tenant ends the pass with a requeue; otherwise the rest of the pass runs on what was read |
| `WatchMap.MapModelToInferenceServices` | operator/internal/controller/inference_service_controller.go:339-376 | The loop returns the requests of the listed services that reference the Model |
| `WatchMap.RequestsInListOrder` | operator/internal/controller/inference_service_controller.go:358-373 | Requests keep the order of the list and no item is requested twice |
| `WatchMap.RequestsAreExact` | operator/internal/controller/inference_service_controller.go:347-375 | As a set the requests are exactly the services of the namespace that reference the Model, each once |
| `WatchMap.WatchIsComplete` | operator/internal/controller/inference_service_controller.go:57-79 | If two stores differ in one Model only, every service whose pass differs in services, Jobs or requeueing, under any call outcomes, is among the requests of that Model |
| `TenantProvisioning.ProvisionAt` | operator/internal/controller/tenant_controller.go:49-88 | A pass, object by object: exactly the children its fail-fast order reaches are mutated from what was there |
| `TenantProvisioning.PassLeavesChildrenAsMeant` | operator/internal/controller/controller_helpers.go:20-235 | After a pass, failing or not, each child that it reached has the tenant label, the namespace the three restricted pod security labels, the quota exactly the parsed limits, role, binding and policy their content, and everything else about it as it was found; every other object is as it was |
| `TenantProvisioning.SuccessfulPassContent` | operator/internal/controller/controller_helpers.go:20-62 | A successful pass leaves a quota whose hard limits are those of the Tenant, the tenant label on all six children and the restricted level on the namespace |
| `TenantProvisioning.SuccessfulPass` | operator/internal/controller/tenant_controller.go:49-88 | A pass reports no error if and only if the quota parses and every call succeeded, and then it has written all six children |
| `TenantProvisioning.ProvisioningIsConfluent` | operator/internal/controller/tenant_controller.go:49-88 | From any store, after any sequence of passes of any tenants and specs failing at any points, a successful pass leaves the same six children as a single successful pass on the starting store |
| `TenantProvisioning.DifferentTenantsCommute` | operator/internal/controller/tenant_controller.go:49-88 | Passes of different tenants write disjoint objects and commute, with the same errors |
| `TenantProvisioning.ErrorsAreExact` | operator/internal/controller/tenant_controller.go:57-73 | Which combination of reported errors means that a stage really completed, in both directions |
| `TenantProvisioning.ErrorsCarryTheirTexts` | operator/internal/controller/controller_helpers.go:123-170 | Each reported error carries the text of its own call, that of RBAC the text of the Role if that failed and of the RoleBinding otherwise |
| `TenantProvisioning.NoQuotaErrorWithoutQuota` | operator/internal/controller/tenant_controller.go:58-61 | Counterexample: no quota error is reported while there is no quota |
| `TenantObjects.DesiredAbsorbs` | operator/internal/controller/controller_helpers.go:20-235 | A mutate closure applied after one for an earlier spec gives what it gives alone |
| `TenantObjects.BuildQuotaResourceList` | operator/internal/controller/controller_helpers.go:64-100 | Succeeds exactly when every given quantity parses, with exactly those entries |
| `TenantObjects.LimitsAre` | operator/internal/controller/controller_helpers.go:64-100 | There are limits if and only if every given text parses; then cpu, memory and gpu have the quantity of their own text, pods and jobs too if given, and there is no other entry |
| `TenantStatusRules.TenantStatusStaysShaped` | operator/internal/controller/tenant_controller.go:94-138 | Over any sequence of updates from an empty status the stored list is empty or the seven types in code order, lawful, with Ready, the five resource conditions and the phase in agreement |
| `TenantStatusRules.TenantReadyMeansProvisioned` | operator/internal/controller/tenant_controller.go:75-88 | In the status of a pass, Ready is True if and only if the pass succeeded, and then all six children are as desired; NamespaceReady and QuotaApplied together are True if and only if the first two stages completed |
| `TenantStatusRules.ConditionsTellTheirErrors` | operator/internal/controller/tenant_controller.go:94-138 | Once an update has gone through, on any status before, each of the five resource conditions is True if and only if its own error is absent, Accepted is True, and Ready and the phase say whether all are absent |
| `TenantStatusRules.StatusTellsTheCalls` | operator/internal/controller/tenant_controller.go:49-88 | In terms of the calls: a stage that is not reached reports True; a stage that is reached reports exactly whether its own calls went through |
| `TenantStatusRules.MessagesTellTheirErrorsExactlyWhen` | operator/internal/controller/tenant_controller.go:98-124 | Once an update has gone through, each of the seven messages is that of its own error if and only if the status had to be written or they were before |
| `TenantStatusRules.ReadyTenantHasItsQuota` | operator/internal/controller/controller_helpers.go:43-100 | A Ready Tenant has a quota with exactly the parsed quantities of its spec, entry by entry |
| `TenantStatusRules.WorkloadConditionsExactlyWhen` | operator/internal/controller/tenant_controller.go:57-73 | ServiceAccountReady, RBACReady or NetworkPolicyReady True implies that the object is there if and only if the pass got past the quota or the object was there before |
| `TenantStatusRules.NetworkPolicyReadyWithoutPolicy` | operator/internal/controller/tenant_controller.go:58-61 | Counterexample: a tenant whose namespace fails reports NetworkPolicyReady True and has no policy |
| `TenantStatusRules.QuotaAppliedExactlyWhen` | operator/internal/controller/tenant_controller.go:57-73 | After a pass whose status update went through, QuotaApplied True implies that the quota exists if and only if the namespace call succeeded or the quota was there before, and that it is as desired if and only if the namespace call succeeded or it was as desired before |
| `TenantStatusRules.QuotaAppliedWithoutQuota` | operator/internal/controller/tenant_controller.go:58-61 | Counterexample: the stored status says QuotaApplied True and there is no quota |
| `TenantReconciler.Cluster.Ensure` | operator/internal/controller/controller_helpers.go:20-235 | The label and content edits of each closure give the desired object, and exactly that child changes |
| `TenantReconciler.ReconcileRbac` | operator/internal/controller/controller_helpers.go:123-170 | The binding is attempted only once the role is there, and the error is that of the first failing call |
| `TenantReconciler.UpdateStatus` | operator/internal/controller/tenant_controller.go:94-138 | The status update is one attempt of the suppressing writer |
| `TenantReconciler.NewConditions` | operator/internal/controller/tenant_controller.go:95-124 | The seven conditions upserted in code order on a fresh copy |
| `TenantReconciler.Reconcile` | operator/internal/controller/tenant_controller.go:49-88 | Children and stored status of a whole pass are those of the provisioning function with its errors, and an error is returned if and only if there was one or a status write that was needed failed |
| `TenantIsolation.ReachableIsWritten` | operator/internal/controller/controller_helpers.go:20-235 | In every reachable store, with passes of any tenants in flight and anything happening between two of their calls, all Roles, RoleBindings and NetworkPolicies have the operator's content, tenant labels name their own namespace, and a namespace with a policy carries its label; a pass beyond its first call has its namespace labelled |
| `TenantIsolation.CallKeepsWritten` | operator/internal/controller/tenant_controller.go:57-71 | Each call of a pass, answered in any way, keeps this, the policy call because its namespace is labelled by then |
| `TenantIsolation.PassKeepsWritten` | operator/internal/controller/tenant_controller.go:57-73 | An uninterrupted pass from any stage on, failing anywhere, keeps this |
| `TenantIsolation.PassesAreCalls` | operator/internal/controller/tenant_controller.go:49-88 | Taken call by call without interruption, a pass leaves exactly the children of the provisioning function |
| `TenantIsolation.NamespaceLostUnderAPass` | operator/internal/controller/tenant_controller.go:57-71 | Counterexample: if the namespace is deleted under a pass before its policy call, the policy ends up in an unlabelled namespace, and pods of the tenant cannot even reach each other |
| `TenantIsolation.CrossTenantTrafficIsDenied` | operator/internal/controller/controller_helpers.go:184-235 | In every reachable store traffic between two isolated namespaces passes if and only if they are the same, on any port and for any pod labels; towards a namespace without the policy exactly DNS passes |
| `TenantIsolation.IngressMeansSameTenant` | operator/internal/controller/controller_helpers.go:184-235 | Ingress into an isolated namespace is admitted if and only if it comes from that namespace |
| `TenantIsolation.EgressMeansSameTenantOrDns` | operator/internal/controller/controller_helpers.go:184-235 | Egress from an isolated namespace is admitted if and only if it stays there or goes to port 53, UDP or TCP, of a kube-dns pod |
| `TenantIsolation.AccessIsScoped` | operator/internal/controller/controller_helpers.go:102-170 | In every reachable store the workload account of namespace A is granted a verb on a resource in namespace B if and only if A is B, its Role and RoleBinding exist and the verb is a permitted one; no write verb on models anywhere |
| `TenantIsolation.SuccessfulPassIsolates` | operator/internal/controller/controller_helpers.go:102-235 | After one successful pass on an operator-written store pods of the tenant are reached from its namespace only, reach its namespace and DNS only, and its workload account may do exactly what is permitted there |
| `ModelController.ModelHistory` | operator/internal/controller/model_controller.go:24-90 | Over every history of edits and passes, delivered or not, Ready, reason and phase say whether the last completed pass accepted the spec it read, and the stored digest is the one read by the pass that last moved the Model into Ready, or empty |
| `ModelController.CompletedPassDecides` | operator/internal/controller/model_controller.go:52-90 | Right after a completed pass Ready is True, and the phase Ready, if and only if the spec is accepted |
| `ModelController.CompletedPassGivesVerdict` | operator/internal/controller/model_controller.go:64-90 | Whatever status the Model had, after a completed pass status and reason of Ready and the phase are the verdict on the spec, and other conditions are as they were |
| `ModelController.MessageExplainsExactlyWhen` | operator/internal/controller/model_controller.go:52-90 | After a completed pass the message says why the spec is refused, a missing source before a missing digest, if and only if the status had to be written or it said so before |
| `ModelController.StaleVerificationMessage` | operator/internal/controller/model_controller.go:83-85 | Counterexample: a Model that gets a source but no digest keeps the message about its source |
| `ModelController.DigestIsCurrentExactlyWhen` | operator/internal/controller/model_controller.go:83-85 | After a completed pass of an accepted spec the stored digest is the one of the spec if and only if the Model was not Ready before or already had that digest |
| `ModelController.ReadyWithStaleDigest` | operator/internal/controller/model_controller.go:59 | Counterexample: editing the digest of a Ready Model leaves the old digest in a Ready status |
| `ModelController.ModelObject.VerifyArtifact` | operator/internal/controller/model_controller.go:52-61 | Accepts exactly specs with a source and, if a signature is required, a digest; writes the digest in memory only then |
| `ModelController.Reconcile` | operator/internal/controller/model_controller.go:24-90 | Run on a heap object it stores exactly the status of the history model, and reports a change exactly when conditions or phase differ |
| `Admission.FirstDenial` | operator/internal/admission/admission_decision.go:36-43 | For any list: allowed if and only if every decision allows, otherwise a denial all of whose predecessors allow |
| `Admission.ChainIsFirstDenial` | operator/internal/admission/validation.go:22-36 | The short-circuit chain equals taking the earliest denial of its four checks run eagerly |
| `Admission.AllowedExactlyWhen` | operator/internal/admission/validation.go:22-110 | Allowed if and only if the Tenant is found, the profile known, given SLO targets positive and, when the readable policy requires it, the Model absent or requiring a signed image |
| `Admission.DenialCodeExactlyWhen` | operator/internal/admission/validation.go:22-110 | Which code a denial carries, and its reason, in terms of what the API answers: tenant missing, tenant lookup failed, profile unknown, SLO target not positive, Model lookup failed, Model unsigned, in this order |
| `Admission.CandidateObject.Mutate` | operator/internal/admission/mutation.go:31-54 | The in-place edit of the annotations gives the mutated candidate, with the error path of the Tenant lookup |
| `Admission.AnnotationsAre` | operator/internal/admission/mutation.go:31-54 | Tenant and fairness annotation are the namespace; if the Tenant is found, the priority annotation is the decimal of the derived priority and parses back but for the minimum int32; an error is returned if and only if the lookup fails |
| `Admission.MutationIsIdempotentAndFramed` | operator/internal/admission/mutation.go:31-54 | Mutating twice equals once, only three annotations change, and validation decides the same before and after |
| `AdmissionChain.AdmissionAgreesWithReconcile` | operator/internal/admission/mutation.go:31-54 | A service allowed against a store and reconciled in it gets TenantResolved and ResourceProfileResolved True and the priority its annotation prints; the annotation parses back if and only if that is not the minimum int32 |
| `AdmissionChain.SignedModelChain` | operator/internal/admission/validation.go:85-110 | Over a run: if admission allowed a service against the cache of some state, under a readable policy that requires signed models, and its Model was there, and from then on the cache shows that reference, that Model spec and only a readiness computed for it, then every step that makes a Job of the service appear, in a pass taken after admission, builds it from a Ready Model of that spec that requires a signed image and names a digest |
| `AdmissionChain.SignedRunsExist` | operator/internal/admission/validation.go:85-110 | The hypotheses of the chain can be met: for any new service that can run, sets no SLO and has a Model that requires a signature and became Ready for its spec there is a run from the start of the operator in which it is admitted and then gets its Job |
| `AdmissionChain.StoredJobsAreSigned` | operator/internal/controller/inference_service_controller.go:66-79 | In every later state each stored Job of such a service was there when that pass began, was written by someone else, or is such a signed Job, unmodified since |
| `AdmissionChain.StaleReadinessBreaksTheChain` | operator/internal/controller/model_controller.go:52-61 | Why readiness must be computed for the spec: a Model that is edited to require a signature stays Ready without a digest until its next pass |
| `AdmissionChain.ReadyModelsAreAccepted` | operator/internal/controller/model_controller.go:52-90 | A Model whose readiness was computed for its spec is Ready only if verification accepts that spec |
| `AdmissionChain.UnreadablePolicyFailsOpen` | operator/internal/admission/validation.go:86-89 | A service denied for an unsigned Model is allowed as soon as the policy cannot be read |
| `Decimal.Itoa` | operator/internal/admission/mutation.go:56-76 | The backwards loop on the 12-byte buffer, under wrapping negation, prints the specified text and never lets the position fall below 1 |
| `Decimal.PrintedParsesBack` | operator/internal/admission/mutation.go:56-76 | Every int32 but the minimum prints as canonical decimal that parses back to it; the minimum prints as a lone minus, which does not parse |
| `Decimal.PrintedIsInjective` | operator/internal/admission/mutation.go:56-76 | No two int32 values print alike |
| `Workload.PlacementCoherent` | operator/internal/scheduling/workload.go:140-268 | Every Job names the GPU queue of its tenant if and only if it limits exactly one GPU resource, if and only if it has the NVIDIA runtime class, if and only if it serves the URI of the Model; completions equal parallelism and are at least 1; the MIG slice is limited exactly when asked for; it starts suspended and is owned by its service |
| `Workload.JobMeetsItsSpec` | operator/internal/scheduling/workload.go:140-268 | Completions and parallelism are the replicas asked for, one if absent or below one; queue, priority class and service label are those of the service; a GPU Job serves the URI of the Model with vLLM on one device; any other is a placeholder whose CPU and memory go by workload class, requested and limited alike |
| `Workload.ReplicaCount` | operator/internal/scheduling/workload.go:35-45 | At least one replica, and the given number whenever that is positive |
| `Workload.BuildJobIgnoresStatus` | operator/internal/scheduling/workload.go:140-268 | Status and resource version of the service do not enter the Job |
| `Workload.GpuJobsServeTheModel` | operator/internal/scheduling/workload.go:132-138 | A GPU Job passes the source URI of the Model it was built from |
| `Priority.PriorityCoherence` | operator/internal/priority/priority.go:3-18 | For non-negative defaults without override the derived priority is monotone and orders the three classes as the Kueue values do, and at the default 1000 it equals them |
| `Priority.DerivedPriorityIs` | operator/internal/priority/priority.go:3-18 | Without override batch gets a third and background a tenth of the tenant default, rounded toward zero for either sign, everything else the default itself; an override is taken as it is |
| `Priority.ClassOrderExactlyWhen` | operator/internal/priority/priority.go:7-17 | Without override the derived priorities order the three classes as the Kueue values do if and only if the default is not negative; for every negative default batch and background come out above interactive |

## Left out

- WritesAreBounded: five writes per service instead of three and two more per lost Job call, because a lagging Job cache and failed Job calls make the code write more; three is proved when neither occurs.
- LoopConverges: nobody else creates or deletes a Job once edits have stopped, since the operator does not watch Jobs and would not notice.
- DigestIsCurrentExactlyWhen: the Model controller does not refine an always-writing one, since the resolved digest is not part of its comparison; this states when the digest is current instead.
- SignedModelChain: the Model is taken to be created with an empty status and its status written by the Model controller only.
- The text of returned errors, and the length of the RequeueAfter delay and of the back-off; only whether the key comes back.
- The Get that starts a Tenant or a Model pass; an object that is gone ends it without effect.
- The suggestion text of an admission denial.
- A failing List inside the map function, which drops a Model event.
- Error texts: messages are values of a datatype, one per format; all other error strings are opaque.
- The ObservedGeneration field of single conditions, which no controller sets.
- Fields that no modelled decision reads: Statefulness, SLO availability, Endpoint, Model version and source type, pod-template labels, security contexts, restart policy.
- Deletion timestamps, finalizers and garbage collection of owned Jobs; a deletion is one step.
- ClusterRoles, NetworkPolicies, Roles and RoleBindings written by others than the operator.
- Immutability of a RoleBinding's role reference appears only as one of the arbitrary call failures.
- Kueue admission, borrowing and preemption; only the three priority values are used.
- The webhook glue (operator/internal/webhook) and the manager set-up (operator/cmd/main.go), which only forward.
- Resource profile tables, beyond which profiles are known.
- Terraform, GitOps, container images, CI and CRD YAML.
