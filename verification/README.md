# Model of the model operator

The repository is a Kubernetes operator with two level-triggered controllers. This project models both of
them in Dafny and proves what they guarantee.

**Artifacts.** A ModelArtifact is imported by a Job that works in a PVC. `ArtifactMachine` is a small-step
machine over the stored objects and one reconcile in flight; a step of the controller is one API call, which is
answered, refused, or fails although it took effect. Between two calls the spec is edited, Jobs progress, are
marked for deletion or vanish, Pods change, foreign Jobs come and go, and the operator crashes and comes back as
another version. `ArtifactSafety` has the inductive invariant, `ArtifactRuns` and `ArtifactRecords` the safety
results over all runs, `ArtifactTargets` what its Jobs push, `ArtifactProgress` stabilisation and re-runs,
`ArtifactFreshness` which steps leave an outdated Job behind, `ArtifactSources` where every recorded value comes
from, and `ArtifactRounds` what one reconcile writes. `ArtifactController` writes the controller's loops and early returns as methods of a class
whose fields are the cluster; its `Valid()` says that what was done so far is a run of the machine, so the
results about runs are results about that code. Switches of the class say whether calls may fail and whether the
rest of the world acts, and what a reconcile then brings about. `ArtifactStatus` derives phases and messages
from Jobs and Pods, and `ArtifactMessages` says whose words those are, by their places in the lists.

**Services.** A ModelService becomes 18 ensure-or-cleanup operations on a store keyed by kind, namespace and
name. `ServingBuilders` and `ServiceBuilders` build the objects, `ServicePlan` lists the operations,
`ServiceConvergence` and `ServiceInterleaving` prove what passes achieve, also when they are cut off, repeated, or
run beside those of other services. What then stands in the stored objects is proved field by field:
`ServiceStored` says which fields a pass writes and which it leaves to others, `ServicePods` what runs in the Pods,
`ServiceObjects` what the other objects say, `ServiceSelectors` who finds whom, `ServiceWiring` how objects that
were built apart fit together. `ServiceCommands` reads the argument lists the way the started programs do, by the
rules of `CommandLines`. `ServiceEngine` is the create-or-update engine itself: a class with versioned objects,
faults, and other clients that act between the calls.

**Cluster RBAC.** `FinalizerMachine` has every ModelService of a cluster with one worker each, the
cluster-scoped RBAC objects, users, administrators, faults and crashes. `FinalizerSafety` proves that nothing
leaks, `FinalizerProgress` what an undisturbed reconcile achieves, `FinalizerController` the code of one
worker among the others.

**Names and labels.** `Names` models the sanitizer and the derived names, `NameLaws` has the laws that determine
the sanitizer, `Labels` the two label sets, `Ordering` the sort by string keys that both controllers use.

Foreign to the model and therefore parameters or nondeterministic: the answers and faults of the API server,
what other clients do, the order of lists and of map iteration, SHA-256 and 32-bit number parsing (uninterpreted
functions in the settings).

Assumptions: reads are current; one worker per object; the status of an artifact is written by its controller
only; owned Jobs are created by the controller only, and nobody changes their labels or owners; nobody else
creates or deletes the PVC; a Job's verdict, once reached, does not change; users leave the operator's finalizer
alone; cluster RBAC under the operator's names is created by the operator only; vLLM's argument parser takes the
last `--option value` or `--option=value`, and the flag parser of picker and proxy, given the sort of arguments
they are started with, the last setting of a flag. How those programs read numbers is left open, but for this:
a plain decimal is read as what it is.

## Where the code and its comments differ

- `internal/controller/modelartifact_controller.go:126-127` promises a new Job after every edit. The old phase
  is passed on as fallback (line 204), so an edit after Succeeded or Failed keeps the verdict for good
  (`VerdictIsFinal`), and `RerunExactly` says when there is a re-run.
- Line 167 of the same file advances the observed generation although the cleanup failed. The outdated Job
  then stays (`RefusedCleanupHidesStaleJob`). A reconcile that ends before the first status is written does the
  same once the spec is edited: after a crash (`CrashHidesStaleJob`), or after a refused list of Jobs or Pods.
  No other step does: the error patch and an end with no generation observed are all (`StepKeepsExactly`,
  `FreshUntilHidden`).
- Lines 204-213 of the same file hand a recorded digest on when the Job is gone, and then write the current target
  beside it. So an edit after a success leaves the digest of the old push under the reference of a target where
  nothing was pushed (`EditMovesReference`); `ReferenceStaysExactly` says when a reference stays. When a digest is
  recorded first, the reference is the Job's own target unless an outdated Job was hidden (`FirstDigestIsPushed`).
- `internal/modelservice/helpers.go:193-195` calls cluster RBAC names unique. When they collide says
  `ClusterRBACNamesExactly`, and a deletion then takes a live service's grants (`NamesakeLosesGrants`).
- `internal/modelservice/reconcile.go:157-168` means to remove a pool of an older version; it removes the
  pool of a service that is named like the endpoint picker (`LegacyCleanupHitsNamesake`).
- `internal/modelservice/inferencepool.go:81-84` takes a negative picker port literally, the other builders
  do not (`PickerPortsAgree`).
- `internal/modelservice/deployment.go:171-186` compares the side channel port with vLLM's own ports only; it may
  be the proxy's in the same Pod (`DecodePortsClash`).
- The token Secret is not made on GKE (`internal/modelservice/reconcile.go:387-392`), but the ServiceMonitor
  refers to it there too (`MonitorSecretExists`).

## Model

| member | source | states |
|---|---|---|
| ArtifactRuns.SinglePipeline | internal/modelartifact/reconcile.go:67-100 | In every reachable state at most one owned Job is not being deleted, through lost responses, TTL deletion, edits and version changes. |
| Labels.SelectorIgnoresVersion | internal/labels/labels.go:46-70 | A selector matches an object's labels exactly when name and component agree, whatever version created it; so created Jobs are found again. |
| ArtifactRuns.WorkspaceSafety | internal/modelartifact/reconcile.go:36-61 | In every reachable state a live Job without a verdict has its workspace PVC. |
| ArtifactRuns.WorkspaceOutlivesJobs | internal/controller/modelartifact_controller.go:90-94 | Any step that takes the workspace away finds and leaves only finished live Jobs. |
| ArtifactRuns.JobsStartWithWorkspace | internal/controller/modelartifact_controller.go:131-138 | A new owned Job appears only beside an existing workspace, with no other live Job and no recorded verdict. |
| ArtifactRuns.VerdictIsFinal | internal/controller/modelartifact_controller.go:204-213 | After Succeeded or Failed is recorded no continuation of the run changes the phase, empties a digest or brings a new Job, not even after edits. |
| ArtifactRuns.ReadyIsEarned | internal/controller/modelartifact_controller.go:225-231 | Ready=True or phase Succeeded in any reachable state implies that an owned Job stood there succeeded earlier in the run. |
| ArtifactRecords.DigestIsOfSuccess | internal/controller/modelartifact_controller.go:206-213 | In every reachable state a digest is recorded only for a succeeded artifact, and exactly together with its reference. |
| ArtifactRecords.RecordsStay | internal/controller/modelartifact_controller.go:206-223 | No continuation of a run forgets a recorded digest, reference, Job, start or completion time. |
| ArtifactTargets.JobsCarryTarget | internal/modelartifact/job.go:200-210 | In every reachable state each Job of the artifact pushes to the target the artifact had in the generation the Job was built from, so one of the current generation to the current target. |
| ArtifactTargets.GenerationHasOneTarget | internal/modelartifact/job.go:200-210 | Along a run a generation has one target, so that target is determined. |
| ArtifactTargets.NewJobsAreNew | internal/modelartifact/reconcile.go:67-85 | A Job that appears is owned by the artifact, not started, and carries the five recommended labels for the operator's version. |
| ArtifactSources.RecordsHaveSources | internal/controller/modelartifact_controller.go:206-223 | In every reachable state the recorded Job is an owned one that was live earlier in the run, the times are those of such a Job, the digest is the winning message of the Pods of a succeeded one without surrounding white space, and the reference is registry/repository:tag of a target the artifact had, with "latest" for no tag; each unless it is what the artifact came with. |
| ArtifactSources.FirstDigestIsPushed | internal/controller/modelartifact_controller.go:204-213 | As long as no step has hidden an outdated Job, the first digest recorded and the reference beside it belong to one succeeded Job: its Pods' message, and where it was to push. |
| ArtifactRounds.RoundRecords | internal/controller/modelartifact_controller.go:204-236 | From every reachable state, one undisturbed reconcile leaves the phase, name and times of the live Job, its Pods' message for a digest with the current target for a reference, or without a live Job what was recorded; one Ready condition that says so for the current generation, and everybody else's conditions as they were. |
| ArtifactRounds.ReferenceStaysExactly | internal/controller/modelartifact_controller.go:204-213 | With a digest recorded, a reconcile leaves the reference exactly when the current target goes by that text, or a live Job is there whose Pods are silent. |
| ArtifactRounds.EditMovesReference | internal/controller/modelartifact_controller.go:204-213 | After any success with a digest, an edit and one reconcile leave the old digest beside the reference of the new target, with no new Job. |
| ArtifactRounds.ErrorIsReported | internal/controller/modelartifact_controller.go:154-172 | From every reachable state the error patch leaves Ready=False with the error's message for the fetched generation, the advanced observed generation, and all else as it was. |
| ArtifactRounds.ErrorsRecordedExactly | internal/controller/modelartifact_controller.go:78-85 | A refused call leads to the error patch exactly when it is one of reconcileResources; any other ends the reconcile with nothing changed. |
| ArtifactSafety.StepSafe | internal/controller/modelartifact_controller.go:72-144 | The invariant that ties phase, generation, Jobs, PVC and the locals of the reconcile in flight is kept by every call and every environment step. |
| ArtifactProgress.Freshness | internal/controller/modelartifact_controller.go:112-129 | Without failures, between reconciles every live Job was built from the observed generation, wherever edits fall between the calls. |
| ArtifactFreshness.StepKeepsExactly | internal/controller/modelartifact_controller.go:112-172 | From any state of any run, whatever call, fault, crash or edit comes next: Jobs and observed generation stay together if and only if the step is not an error patch beside a Job of another generation, nor the end of a reconcile that leaves a live Job with no generation observed. |
| ArtifactFreshness.FreshUntilHidden | internal/controller/modelartifact_controller.go:112-172 | So they stay together along a whole run exactly as long as it takes no such step. |
| ArtifactFreshness.UnhiddenIsFresh | internal/controller/modelartifact_controller.go:112-172 | Without such a step every live Job is of the observed generation between reconciles, under every other fault. |
| ArtifactProgress.FreshExactly | internal/controller/modelartifact_controller.go:116-143 | With any past, one undisturbed reconcile ends fresh if and only if it had something to clean up or the live Jobs were current before. |
| ArtifactProgress.RefusedCleanupHidesStaleJob | internal/controller/modelartifact_controller.go:154-172 | A refused cleanup ends with the observed generation advanced and the outdated Job live. |
| ArtifactProgress.StaleJobIsReached | internal/controller/modelartifact_controller.go:131-138 | A concrete run that brings the artifact before such a cleanup: a first reconcile without a fault, then an edit. |
| ArtifactProgress.CrashHidesStaleJob | internal/controller/modelartifact_controller.go:116-135 | A crash right after the first Job is created, followed by an edit, leaves an outdated Job with nothing stale to see. |
| ArtifactProgress.RerunExactly | internal/controller/modelartifact_controller.go:106-143 | When exactly two undisturbed reconciles end with a live Job of the current generation. |
| ArtifactProgress.EditIsFollowedByJob | internal/controller/modelartifact_controller.go:115-143 | After an edit without a recorded verdict two further fault-free reconciles bring a Job of the new generation that pushes to the edited target, whatever the environment does between their calls. |
| ArtifactProgress.UndisturbedIsRounds | internal/controller/modelartifact_controller.go:72-102 | Any sequence of undisturbed calls, for any list order, comes out as the rounds of one function on the cluster. |
| ArtifactProgress.Stabilisation | internal/controller/modelartifact_controller.go:72-102 | From every reachable state two undisturbed reconciles reach a cluster that further ones leave alone, with conditions sorted and unique by type. |
| ArtifactController.Operator.FindOwnedJob | internal/modelartifact/reconcile.go:87-100 | Refines the machine's step: the first listed Job that is owned and not being deleted. |
| ArtifactController.Operator.EnsurePVC | internal/modelartifact/reconcile.go:36-61 | Get, then create if absent, an existing PVC being no error; refines the machine. |
| ArtifactController.Operator.EnsureJob | internal/modelartifact/reconcile.go:63-85 | Creates a Job exactly when none is found, refining the machine; under every fault and beside any other client, a Job the artifact has gained carries the generation and target of the fetched copy. |
| ArtifactController.Operator.CleanupStaleJobs | internal/modelartifact/reconcile.go:102-123 | The delete loop refines the machine's deletes, skipping foreign and already deleted Jobs. |
| ArtifactController.Operator.DeleteWorkspace | internal/modelartifact/reconcile.go:125-138 | Deletes the PVC, its absence being no error; refines the machine. |
| ArtifactController.Operator.IsOwnedBy | internal/modelartifact/reconcile.go:140-148 | The search loop returns true exactly when an owner reference has the artifact's UID. |
| ArtifactController.Operator.ReconcileResources | internal/controller/modelartifact_controller.go:104-144 | The three branches end where the machine's status step begins, or report the error that is going to be recorded. |
| ArtifactController.Operator.SetReadyConditionFalse | internal/controller/modelartifact_controller.go:154-172 | The error patch, computed field by field, is the machine's. |
| ArtifactController.Operator.ComputeStatus | internal/controller/modelartifact_controller.go:206-236 | The field assignments, with the conditions sorted by the library, give the machine's new status. |
| ArtifactController.Operator.UpdateStatus | internal/controller/modelartifact_controller.go:190-261 | Find, list Pods, observe, patch if different; refines the machine. |
| ArtifactController.Operator.Reconcile | internal/controller/modelartifact_controller.go:72-102 | One reconcile is a stretch of a machine run, under faults and crashes at any call; without an error it has come to its end, and without faults there is none; it asks for a requeue exactly when it succeeded without a digest. |
| ArtifactController.Operator.Operate | internal/controller/modelartifact_controller.go:72-102 | After any number of reconciles every state passed through was safe, verdicts are final, Ready was earned, and every Job pushes to the target of its generation; n reconciles without faults come to n ends; two of them follow an edit with a Job for the edited target, and in a quiet world reach the cluster that stays. |
| ArtifactStatus.ExtractTerminationMessage | internal/modelartifact/status.go:111-131 | The nested loops return the trimmed message of the first candidate with the greatest FinishedAt, of the last one if none has a time, or nothing. |
| ArtifactStatus.LatestExists | internal/modelartifact/status.go:119-129 | Among any candidates with a message there is one to win. |
| ArtifactMessages.MessageIsOfWinner | internal/modelartifact/status.go:111-131 | Told by Pod and container positions: the message is that of the first container among those that finished last, of the last one when no times are known, without the white space around it; one wins unless none left a message, and then it is empty. |
| ArtifactMessages.TrimSpaceExactly | internal/modelartifact/status.go:130-130 | Trimming leaves the contiguous piece that neither begins nor ends with white space and is surrounded by nothing else. |
| ArtifactMessages.ObservationSays | internal/modelartifact/status.go:47-109 | Each phase if and only if the Job's counters say so, readiness by the phase, a digest for a success only, and for a failure the Pods' words or those of its conditions, within 1024 characters. |
| ArtifactMessages.FailureIsFirst | internal/modelartifact/status.go:145-152 | Those are the words of the first condition that reports a failure, or a fixed text when there is none. |
| ArtifactStatus.IsJobFailed | internal/modelartifact/status.go:133-143 | The search loop returns true exactly for a failed count or a true Failed condition. |
| ArtifactStatus.Observe | internal/modelartifact/status.go:47-109 | The branches and loops of the source compute the observation the machine speaks of; the controller calls it. |
| Ordering.SortSorts | internal/controller/modelartifact_controller.go:233-236 | Sorting by key yields an ordered permutation. |
| Ordering.LeIsLexicographic | internal/modelservice/epp_deployment.go:210-213 | The order is Go's on strings: a prefix, or smaller at the first difference. |
| Ordering.SortForgetsOrder | internal/modelservice/epp_deployment.go:210-217 | Two listings of the same distinct strings sort to one list, so map iteration order does not matter. |
| Names.ReplaceKeepsCollapse | internal/modelservice/helpers.go:163-165 | One replacement pass changes nothing about the one-pass collapse of dash runs. |
| Names.ReplaceHalves | internal/modelservice/helpers.go:163-165 | One pass halves the longest run of dashes, rounding up. |
| Names.CollapseDashes | internal/modelservice/helpers.go:162-165 | The rewriting loop ends, equals a one-pass collapse, and takes exactly ceil(log2 L) passes for longest run L: the least number whose power of two reaches L. |
| Names.SanitizeIsLabel | internal/modelservice/helpers.go:148-176 | Every input becomes a label by the grammar of section 2.3.1 of RFC 1035 (in lower case, any length), and the last branch of the function is dead. |
| Names.SanitizeFixpoints | internal/modelservice/helpers.go:150-176 | The sanitizer leaves exactly the labels without double dashes alone. |
| Names.SanitizeIdempotent | internal/modelservice/helpers.go:150-176 | Sanitizing twice is sanitizing once. |
| Names.SanitizeDNS1035Label | internal/modelservice/helpers.go:150-176 | The two loops and the branches compute the sanitized label, which the laws of NameLaws determine. |
| NameLaws.SanitizeObeys | internal/modelservice/helpers.go:150-176 | For all names: a dot or underscore counts as a dash, a capital as its small letter, any other rune as nothing, dashes at the ends or doubled do not count; what is left gets "m-" before a digit, and "modelservice" stands for nothing left. |
| NameLaws.LawsDetermine | internal/modelservice/helpers.go:150-176 | Any function that obeys these laws is the sanitizer. |
| Names.EPPNameIsNew | internal/modelservice/helpers.go:137-141 | No service is named like its own endpoint picker, so the legacy cleanup spares the pool being ensured. |
| Names.EPPNameIsLabel | internal/modelservice/helpers.go:137-141 | Picker names are labels for every service name. |
| Names.ClusterRBACNamesAgree | internal/modelservice/helpers.go:193-198 | Within a namespace cluster RBAC names collide exactly when sanitized names do. |
| Names.ClusterRBACNamesExactly | internal/modelservice/helpers.go:193-198 | For all namespaces and names, when exactly two services share a cluster RBAC name: the same namespace and sanitized name, or a dash that moves from the longer namespace to the other's name. |
| Names.ClusterRBACNamesCollide | internal/modelservice/helpers.go:193-198 | A family of such collisions, one for every dash between labels. |
| Names.DeploymentNamesDiffer | internal/modelservice/helpers.go:111-141 | The decode, prefill and picker Deployments of any services never share a name. |
| ServiceConvergence.Convergence | internal/controller/modelservice_controller.go:153-222 | From any store one fault-free pass leaves each managed key with its desired managed fields and its other fields untouched, or absent. |
| ServiceConvergence.ConvergenceFrame | internal/controller/modelservice_controller.go:157-222 | The pass changes no other key. |
| ServiceConvergence.PresenceByGates | internal/modelservice/reconcile.go:57-591 | After a pass an object is present if and only if its feature gate is on; the legacy pool never is. |
| ServiceConvergence.PassesAgree | internal/controller/modelservice_controller.go:157-222 | Passes from different stores agree on every managed field. |
| ServiceConvergence.Idempotence | internal/modelservice/reconcile.go:593-663 | A second pass changes nothing, and its writes are exactly one of the DestinationRule under Istio and none otherwise. |
| ServicePlan.PlanIsDistinct | internal/controller/modelservice_controller.go:157-222 | The operations of a pass touch pairwise different keys, so none undoes another. |
| ServiceTypes.MergeSpec | internal/modelservice/reconcile.go:646-648 | The mutated object is the only one that has the desired managed fields and the existing other ones. |
| ServiceInterleaving.PrefixSafety | internal/controller/modelservice_controller.go:153-206 | Through passes cut off at any call, with the spec changing in between, a picker Deployment has its account and config, a pool its Service, a route its pool. |
| ServiceInterleaving.SeparateExactly | internal/modelservice/helpers.go:111-203 | Two services touch no common key if and only if they share no cluster RBAC name and, in one namespace, neither is named like the other's picker. |
| ServiceInterleaving.NonInterference | internal/controller/modelservice_controller.go:157-222 | Passes of such services commute from every store, and every interleaving of their operations ends as if they had run one after the other. |
| ServiceInterleaving.LegacyCleanupHitsNamesake | internal/modelservice/reconcile.go:157-168 | A pass removes the pool of the service named like its picker. |
| ServiceInterleaving.PoolsApartExactly | internal/modelservice/reconcile.go:157-174 | A pass leaves another service's pool alone in every store if and only if that service is in another namespace or not named like the picker. |
| ServiceEngine.ApiServer.EnsureResource | internal/modelservice/reconcile.go:593-663 | Success means the key held the desired managed fields at the last call and no other client's fields were lost, whatever others did between Get and Update; if they spare the key it is the plan's operation or nothing, with a write exactly when needed. |
| ServiceEngine.ApiServer.EnsureClusterResource | internal/modelservice/reconcile.go:494-540 | The same for cluster-scoped objects. |
| ServiceEngine.ApiServer.EnsureDeployment | internal/modelservice/reconcile.go:101-130 | The same for Deployments, which are compared first and not recreated. |
| ServiceEngine.ApiServer.CleanupObject | internal/modelservice/reconcile.go:665-681 | Success means the key was absent at the last call; a missing kind counts as absence only where the source says so. |
| ServiceEngine.ApiServer.EnsureDecodeDeployment | internal/modelservice/reconcile.go:44-55 | Carries out the plan's first operation, or stops the pass there. |
| ServiceEngine.ApiServer.EnsurePrefillDeployment | internal/modelservice/reconcile.go:57-71 | The prefill Deployment or its removal. |
| ServiceEngine.ApiServer.EnsureEPPServiceAccount | internal/modelservice/reconcile.go:256-270 | The picker's ServiceAccount. |
| ServiceEngine.ApiServer.EnsureEPPConfigMap | internal/modelservice/reconcile.go:272-287 | The picker's ConfigMap. |
| ServiceEngine.ApiServer.EnsureEPPDeployment | internal/modelservice/reconcile.go:289-344 | The picker Deployment, from a synthetic picker when the service has none. |
| ServiceEngine.ApiServer.EnsureEPPService | internal/modelservice/reconcile.go:346-374 | The picker's Service. |
| ServiceEngine.ApiServer.EnsureEPPSATokenSecret | internal/modelservice/reconcile.go:376-399 | The token Secret or its removal. |
| ServiceEngine.ApiServer.EnsureEPPRBAC | internal/modelservice/reconcile.go:401-429 | Role, then RoleBinding. |
| ServiceEngine.ApiServer.EnsureEPPClusterRBAC | internal/modelservice/reconcile.go:431-463 | ClusterRole, then ClusterRoleBinding, or the removal of both. |
| ServiceEngine.ApiServer.CleanupLegacyPool | internal/modelservice/reconcile.go:157-168 | The cleanup whose error is thrown away: the pass goes on whatever became of it. |
| ServiceEngine.ApiServer.EnsureInferencePool | internal/modelservice/reconcile.go:145-174 | The default or the explicit pool, after the legacy one; whom its selector finds says ServiceSelectors.PoolFindsExactly. |
| ServiceEngine.ApiServer.EnsureHTTPRoute | internal/modelservice/reconcile.go:176-207 | The explicit route, the default route, or the removal. |
| ServiceEngine.ApiServer.EnsureDestinationRule | internal/modelservice/reconcile.go:542-566 | The rule under Istio, the removal otherwise. |
| ServiceEngine.ApiServer.EnsurePodMonitors | internal/modelservice/reconcile.go:209-254 | Both monitors, one, or none; what a stored one then scrapes says ServiceObjects.MonitorsScrape. |
| ServiceEngine.ApiServer.EnsureEPPServiceMonitor | internal/modelservice/reconcile.go:568-591 | The picker's monitor or its removal. |
| ServiceEngine.ApiServer.ReconcileResources | internal/controller/modelservice_controller.go:153-222 | All steps in order up to the first error: if other clients spare the plan's keys, what is stored under those ends at a cut of the plan, at its end if nothing fails, with no write the plan does not need. |
| ServiceEngine.ApiServer.ReconcileService | internal/controller/modelservice_controller.go:102-111 | With image defaults on a copy, and with other clients acting on other keys between any two calls: without faults exactly one Pass and its writes, with faults a cut pass. |
| ServiceEngine.ApiServer.Operate | internal/controller/modelservice_controller.go:89-118 | Prefix safety holds of the engine itself over any number of reconciles, under faults and beside clients of other keys. |
| ServiceEngine.ServiceCopy.ApplyImageDefaults | internal/modelservice/defaults.go:35-49 | The assignments in place fill exactly the open images. |
| ServiceBuilders.ImageDefaultsStay | internal/modelservice/defaults.go:35-49 | Defaulting twice is defaulting once, image by image, the first non-empty default winning. |
| ServingBuilders.SidePortIsFirst | internal/modelservice/deployment.go:160-170 | The side channel port is the valid number of the first variable of its name, and of no later one. |
| ServingBuilders.FindSidePort | internal/modelservice/deployment.go:162-170 | The search loop with its break finds that port. |
| ServingBuilders.PortsAreDistinct | internal/modelservice/deployment.go:171-186 | The vLLM port and the side channel port are exposed, each once, and no other. |
| ServingBuilders.BuildVLLMContainer | internal/modelservice/deployment.go:104-189 | Arguments, environment and ports of the container, the port list extended in place after a search for the port; what that comes to in the stored Pods says ServicePods.EnginesRun. |
| ServingBuilders.CopyDeployLabels | internal/modelservice/reconcile.go:87-93 | The copy loop drops one label and keeps the others. |
| ServiceBuilders.BuildEPPArgs | internal/modelservice/epp_deployment.go:181-220 | The argument list does not depend on the order in which the flag map is walked. |
| ServiceBuilders.ConfigMapHash | internal/modelservice/epp_configmap.go:108-125 | Nor does the hash on that of the config map. |
| ServiceBuilders.MergeMaps | internal/modelservice/epp_deployment.go:310-316 | Later maps lie over earlier ones. |
| ServiceWiring.PickerPortsAgree | internal/modelservice/epp_service.go:37-40 | After a pass container port and Service port of the picker are one; the picker, reading its arguments, listens there if and only if no operator flag gives another number, however spelled; the pool asks for it if and only if no negative port is given. |
| ServiceWiring.PickerKnowsPool | internal/modelservice/epp_deployment.go:71-73 | The picker serves the pool of the pass if and only if no operator flag names another. |
| ServiceWiring.TargetPortReachesVLLM | internal/modelservice/deployment.go:112-116 | The pool's target port reaches the port vLLM listens on, in decode through the proxy if there is one, for each role if and only if nothing after vLLM's own port argument gives another number, however spelled; two containers of the decode Pod then claim one port if and only if the proxy's is vLLM's own or its side channel's. |
| ServiceWiring.DecodePortsClash | internal/modelservice/deployment.go:171-186 | Over all ports of all containers, a serving Pod claims a port twice exactly in decode with a proxy whose port is vLLM's own or the side channel's. |
| ServiceCommands.VLLMPortReads | internal/modelservice/deployment.go:191-227 | vLLM, reading its arguments, listens on the port it is built with unless what follows gives another. |
| ServiceCommands.OnlyUserArgsMovePort | internal/modelservice/deployment.go:191-227 | Unless the model is named like the option, only the user's own arguments can do that. |
| ServiceCommands.ProxyReadsBack | internal/modelservice/deployment.go:273-291 | Reading the proxy's argument list gives back every setting and no other, whatever strings the user filled in. |
| ServiceWiring.OnlyProxyAsks | internal/modelservice/deployment.go:252-328 | Of the init containers only the proxy asks for a port, the engine port; it is the last, and only there in decode when it is configured. |
| ServiceWiring.ProxyForwards | internal/modelservice/deployment.go:268-277 | The proxy takes requests on the engine port and forwards them to the port vLLM is built with. |
| ServiceCommands.PickerReads | internal/modelservice/epp_deployment.go:181-220 | Of every flag the picker takes what is set for the service, unless an operator flag, which comes later, says otherwise. |
| ServiceCommands.OperatorSettingIs | internal/modelservice/epp_deployment.go:210-217 | Operator flags say something of a flag exactly when some key of their map names it, and what stands under the plain name when that is the only one. |
| ServiceWiring.LeaderElectionFlag | internal/modelservice/epp_deployment.go:196-217 | The picker is told to elect with more than one replica, unless an operator flag says otherwise in whatever spelling. |
| ServiceWiring.ElectionHasLeases | internal/modelservice/reconcile.go:412-416 | After a pass the Role grants leases exactly with more than one replica, and the picker elects exactly when its Role grants leases if and only if no operator flag contradicts the replica count. |
| ServiceWiring.ConfigFileExists | internal/modelservice/epp_configmap.go:99-141 | The picker takes its config from a key of the ConfigMap it mounts if and only if no operator flag sends it elsewhere. |
| ServiceWiring.PickerKnowsSettings | internal/modelservice/epp_deployment.go:181-208 | After a pass the picker reads the pool's group, the tracing switch and the switch against metrics authentication as set, if and only if no operator flag says otherwise. |
| ServiceStored.StoredExactly | internal/modelservice/reconcile.go:593-663 | Field by field, for every object a service wants and any store before: built fields are up to date; owners, a Secret's type and what the operator does not build stay as they were, only a DestinationRule loses subsets and exports; a new object has what was built and nothing else. |
| ServiceStored.LabelsStored | internal/labels/labels.go:46-70 | After a pass every object carries the recommended labels with the right name and component, and the version exactly when there is one. |
| ServiceStored.BirthStored | internal/modelservice/reconcile.go:593-620 | A new object is owned by its service unless it is cluster-scoped, and a new Secret is one for an account's token. |
| ServicePods.EnginesRun | internal/modelservice/deployment.go:104-386 | After a pass the Pods of both roles run the engine image named or the operator's, as often as the role asks, at the engine's port or behind the proxy; vLLM, reading its arguments, takes model name and sizes above one as the role has them unless the user's arguments say otherwise; model unpacking and proxy are there exactly when they are called for. |
| ServicePods.SizesRead | internal/modelservice/deployment.go:191-227 | vLLM reads each size above one from the built list, whatever model name and mount path are. |
| ServicePods.PickerRunsAfterPass | internal/modelservice/epp_deployment.go:44-180 | After a pass the picker runs with the image, replicas and resources of the spec or the defaults and with its health and metrics ports; its Pods carry the checksum of the stored ConfigMap's one file. |
| ServiceCommands.DigitsReadBack | internal/modelservice/deployment.go:206-221 | A printed number is digits without a leading zero that read back as the number. |
| ServiceCommands.PlainReadersRead | internal/modelservice/deployment.go:206-221 | So a reader of plain decimals is one of those assumed of the started programs. |
| ServiceSelectors.DeploymentsFindExactly | internal/modelservice/helpers.go:205-263 | For any two services, stores and operator versions: a stored Deployment's selector matches the Pod template stored at a step exactly when it is the same step and name, for pickers the same picker name. |
| ServiceSelectors.PoolFindsExactly | internal/modelservice/inferencepool.go:35-66 | The selector in a stored pool matches exactly the serving Pods, of both roles, of the service of its name. |
| ServiceSelectors.ServiceFindsExactly | internal/modelservice/epp_service.go:32-66 | The selector in a stored Service matches exactly the picker Pods of the services that share its picker name. |
| ServiceSelectors.MonitorsFindExactly | internal/modelservice/podmonitor.go:27-70 | The selector in a stored PodMonitor matches exactly the serving Pods of its service and role. |
| ServiceSelectors.ServiceMonitorFindsExactly | internal/modelservice/epp_service_monitor.go:30-64 | The selector in a stored ServiceMonitor matches exactly the Services of the services that share its picker name. |
| ServiceObjects.MonitorsScrape | internal/modelservice/reconcile.go:209-254 | After a pass a PodMonitor scrapes the port, path and interval of the spec, or "http", "/metrics" and "30s", whatever an earlier one had. |
| ServiceObjects.MonitorPortExists | internal/modelservice/podmonitor.go:36-66 | The port it names is a port of the stored serving container exactly for "http", and for "nixl-side" when the side channel has a port of its own. |
| ServiceObjects.PickerIsScraped | internal/modelservice/epp_service_monitor.go:30-64 | The port the stored ServiceMonitor names is one that the stored Service opens onto the picker's metrics port. |
| ServiceObjects.ServiceOpens | internal/modelservice/epp_service.go:32-66 | The stored Service opens the picker's port and its metrics port, and no other. |
| ServiceObjects.SecretIsForAccount | internal/modelservice/epp_secret.go:28-43 | The stored Secret is annotated for the ServiceAccount of the pass. |
| ServiceObjects.RolesGrantJust | internal/modelservice/epp_rbac.go:33-103 | The stored Role grants the picker's three read rules, leases and events exactly with several replicas, and the ClusterRole its three; no other rule. |
| ServiceObjects.PoolAsksPicker | internal/modelservice/inferencepool.go:35-120 | The stored pool targets the engine port and asks the picker's Service at the spec's port, or 9002, with the spec's failure mode, or FailClose. |
| ServiceObjects.RouteHangsOnGateway | internal/modelservice/httproute.go:61-171 | The stored route hangs on the spec's gateway and namespace, or the service's own, for the spec's host names; the default one on the operator's gateway in "llm-d"; either takes the service's model. |
| ServiceObjects.RuleIsForService | internal/modelservice/destination_rule.go:34-57 | The stored DestinationRule is for the Service of the pass, with simple TLS and without subsets or exports. |
| ServiceObjects.NamesOfLabel | internal/modelservice/helpers.go:112-203 | What the objects of a service are called whose name is a label without double dashes. |
| ServiceWiring.PickerHasAccount | internal/modelservice/epp_deployment.go:109-109 | The picker runs under the account that the RoleBinding of the pass binds to the Role of the pass. |
| ServiceWiring.PickerHasClusterRole | internal/modelservice/epp_cluster_rbac.go:34-80 | With metrics authentication that account is bound to the ClusterRole of the pass. |
| ServiceWiring.RouteReachesPool | internal/modelservice/httproute.go:61-150 | The explicit and the default route lead to the pool of the pass, which exists. |
| ServiceWiring.MonitorSecretExists | internal/modelservice/epp_service_monitor.go:40-49 | The monitor asks for the service's token Secret exactly with metrics authentication, and it exists if and only if the provider is not GKE. |
| ServiceWiring.DefaultRefinesExplicit | internal/modelservice/reconcile.go:303-314 | A service without inferencePool and one with an empty one get the same objects, except those only one of the two is to have, which are the metrics-auth ones. |
| FinalizerSafety.NothingLeaks | internal/controller/modelservice_controller.go:120-151 | In every reachable state each ClusterRole and ClusterRoleBinding has a stored service with the finalizer that maps to its name, colliding or not. |
| FinalizerSafety.LastServiceTakesAll | internal/controller/modelservice_controller.go:135-151 | Without a service that maps to a name there is no grant of that name. |
| FinalizerSafety.GrantsNeedFinalizer | internal/controller/modelservice_controller.go:98-111 | A grant is only ever created by a service's worker while that service is stored with the finalizer. |
| FinalizerSafety.ErrorsNotedExactly | internal/controller/modelservice_controller.go:89-118 | A refused call goes on to the status exactly when it is one of reconcileResources, and otherwise ends the reconcile. |
| FinalizerSafety.UpdatesLoseNoEdit | internal/controller/modelservice_controller.go:127-130 | The operator's updates of a service change its finalizer and nothing else. |
| FinalizerSafety.StepSafe | internal/controller/modelservice_controller.go:89-151 | The invariant over all services, workers and grants is kept by every call, crash and user action. |
| FinalizerProgress.RoundSettles | internal/controller/modelservice_controller.go:89-151 | One undisturbed reconcile puts the finalizer on and brings both grants exactly when wanted; of a deleted service it removes both, and the service unless other finalizers hold it. |
| FinalizerProgress.DeletionSparesExactly | internal/modelservice/reconcile.go:465-476 | A deletion leaves exactly the grants of services that share no RBAC name with the deleted one, by the condition of ClusterRBACNamesExactly. |
| FinalizerProgress.NamesakeLosesGrants | internal/modelservice/helpers.go:193-198 | A live service loses its grants to the deletion of a namesake in another namespace, until its next reconcile. |
| FinalizerProgress.RoundMatchesPass | internal/modelservice/reconcile.go:431-463 | The finalizer machine and the service engine agree on which grants a reconcile leaves. |
| FinalizerController.ServiceWorker.EnsureFinalizer | internal/controller/modelservice_controller.go:122-133 | Adds the finalizer by a versioned update unless it is there; refines the machine. |
| FinalizerController.ServiceWorker.HandleDeletion | internal/controller/modelservice_controller.go:135-151 | Cleanup before the finalizer is removed, and an error before it is kept; refines the machine. |
| FinalizerController.ServiceWorker.CleanupClusterRBAC | internal/modelservice/reconcile.go:471-492 | ClusterRole, then ClusterRoleBinding, absence being no error; refines the machine. |
| FinalizerController.ServiceWorker.EnsureClusterResource | internal/modelservice/reconcile.go:497-540 | Create, update, or recreate after NotFound; refines the machine. |
| FinalizerController.ServiceWorker.EnsureEPPClusterRBAC | internal/modelservice/reconcile.go:431-463 | Both grants or their removal by the gate; refines the machine. |
| FinalizerController.ServiceWorker.Reconcile | internal/controller/modelservice_controller.go:89-118 | One reconcile among all other workers is a stretch of a machine run; without an error it has fetched the service and come to its end; when all is calm it leaves exactly what RoundSettles says. |
| FinalizerController.ServiceWorker.Operate | internal/controller/modelservice_controller.go:89-118 | Over any number of reconciles no state passed through leaks. |

## Left out

- Watches, work queue, requeueing, informers and stale caches: progress is stated as "after n further reconciles", on current reads.
- A reconcile of a missing ModelArtifact, artifact deletion and re-creation under a new UID, and PVCs that are being deleted: they depend on garbage collection.
- ArtifactMachine.Next: the artifact's PVC is present or absent, without content; `lastTransitionTime` of conditions and the namespace of the Job reference are not modelled.
- ArtifactStatus.Truncate: counts characters, where the source counts bytes; FinishedAt is a number with 0 for the zero time.
- Job contents beyond labels, owners and target: the pipeline script, its environment and volumes are calls into other tools.
- ModelService status (`status.go`): its replica counts and phase feed nothing else; the status patch appears only as a call that moves the version on.
- ServingBuilders.BuildVLLMContainer: leaves GPU resources, probes, volumes, pull secrets and security contexts out; the environment of proxy and picker, which carries tracing settings and Pod fields, is left out too.
- CommandLines: option abbreviations, the `--` terminator and values a program rejects at its start are not modelled.
- Plugin configurations, access rules, traffic policy and the unpack script are stand-in constants; label keys and annotation keys are enumerations, taken to be distinct strings.
- ServiceEngine.ApiServer.Get: a missing kind ("no match") is answered only as a fault; decoding of an answer into a prefilled object is not modelled.
- ServiceConvergence.Idempotence: the store keeps specs as written; an API server that adds defaults to Deployments would cause further updates.
- ServiceEngine.ApiServer.Update: an update the API server rejects for a field that may not change (a Deployment's selector, a binding's roleRef) is one that fails without effect; nothing says when it does.
- ServiceEngine: controller references are always set; a foreign controller reference that makes the source fail is not modelled.
- FinalizerMachine.Next: grants are present or absent; their contents are those of ServiceEngine. The other steps of a pass are one call before and one after.
- ServiceInterleaving.NonInterference: shuffles whole operations; that single calls may interleave as well is ServiceEngine.ApiServer.ReconcileService, with the other service among the other clients.
- Flags, manager setup, TLS, health checks, events, logging, YAML and container files: wiring only.
