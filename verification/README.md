# cert-manager operator: a verified model

This project models the parts of the cert-manager operator for OpenShift whose correctness is hard
to see from the code, and proves what they keep. `dafny verify dfyconfig.toml` checks all of it.

| file | component |
|---|---|
| `ClusterRbac.dfy`, `RbacReconciler.dfy` | The IstioCSR ClusterRole and ClusterRoleBinding: server-generated names, names recorded in the status, lookup by label after a lost status write, immutable role references |
| `SingletonElection.dfy` | Which IstioCSR instance is processed when there are several |
| `Strings.dfy`, `ContainerArgs.dfy`, `ContainerEnv.dfy` | The algebra of container arguments and environments: parse, merge, print, strip |
| `TlsProfile.dfy`, `HookPipeline.dfy` | Cluster TLS profiles, and the ordered hooks that turn a cert-manager manifest into a deployment |
| `ReconcileErrors.dfy`, `Conditions.dfy` | Error classes through layers of wrapping; status conditions over runs of reconciles |
| `OptimisticWrites.dfy` | Retry on conflict against a server with resource versions and other writers |
| `TrustDeployment.dfy`, `TrustManager.dfy`, `ContainerPorts.dfy` | Building and comparing the trust-manager deployment; convergence of TrustManager passes |
| `CacheSelectors.dfy`, `LabelKeys.dfy`, `EventRouting.dfy` | The shared informer cache, the label-key validator, and the routing of watch events |

State that the operator updates in place is a class whose methods state their whole new state: the
deployment under the hooks, the conditions, the API server with its persisted status. Calls to the
API server may fail, and a write may also fail after it has taken effect; a pass against a healthy
API server meets no failure, and for such passes it is stated exactly when they succeed. Other
writers act between any two calls in the RBAC, election and optimistic-write components; in the
TrustManager component they act between passes only, and nobody else writes the status conditions.
Go's iteration over maps is a loop that draws keys in an arbitrary order, and a Go map that builders
share by reference is an object they all hold.

## Main results

- **RBAC.** Over every run of passes, failures, crashes, lost status writes and outside edits, no
  state of the cluster has two ClusterRoles or two ClusterRoleBindings of the instance, and recorded
  names never change; and every undisturbed pass against a healthy API server succeeds, whatever
  happened before it, and leaves everything as desired (`RbacReconciler.Run`). Without the assumption
  that label edits leave unrecorded resources findable this is false:
  `ClusterRbac.EditedLabelsDuplicate` gives the input and
  `ClusterRbac.DuplicateExactlyWhenUnfindable` the exact condition.
- **Election.** For every interleaving of creates, deletes and two-phase reconciles, at most one live
  instance has ever been accepted, a persisted rejection is final, and verdicts come exactly from the
  steps that the listing justifies.
- **Pipeline.** The hooks pass exactly under the stated conditions, and then the parsed final
  arguments are those of a reference that is spelled out flag by flag, for every manifest.
- **Status.** Over every run with lost and unanswered writes, what is persisted is the report of the
  committed steps, whatever the controller was told; the server commits one write per step among
  them that is news, which without rejected instances is one per change of outcome; and every
  condition carries the message and time of the first step of its current block. A committed write
  that was not answered is not repeated while the outcome stays.
- **Convergence.** Over every run of TrustManager passes and outside edits (`TrustManager.Run`), a
  pass after a successful one sends nothing as long as others touch only metadata the controller does
  not manage on that resource; rewriting the injected ConfigMap with the same bundle makes it apply
  the CA package alone; after every successful pass every resource is live and the deployment runs
  the configured image, flags and TLS profile with the account UID and bundle hash of the moment; and
  against a healthy API server a pass succeeds exactly when configuration, namespace, bundle and
  manifest allow.

## Where the code falls short of the plain statement

- The argument `=` parses to the pair of two empty strings, which prints as the empty argument and is
  skipped when parsed again. Round trips, idempotence and associativity of merging are therefore
  stated as equivalences that say when this pair interferes. For the same reason break-glass
  arguments do not win on every key they mention: `HookPipeline.BareSeparatorIsLost` gives the input
  and `HookPipeline.UnsupportedWins` the exact condition.
- `FromClientError` classifies by API status alone, so it can turn an irrecoverable error into a
  retryable one; `ReconcileErrors.ClientErrorCanLoseIrrecoverability` gives an input and
  `ReconcileErrors.ClientErrorDecidesAfresh` says exactly when.
- The builder of the trust-manager cluster-view role writes its aggregation label into the label map
  that the whole pass shares. Everything built after it carries the label too, down to the pods:
  `TrustManager.PodsCarryRoleLabel` gives an input, `TrustManager.LeakExactly` and the last clause of
  `TrustManager.Run` say exactly which resources are affected.
- An IstioCSR instance that was accepted is rejected at a later reconcile if another one was created
  within the resolution of the clock: `SingletonElection.AcceptedThenRejected` gives the run and
  `SingletonElection.AcceptedLosesOnlyToTies` says that nothing else can do it.
- An IstioCSR instance that has the rejection annotation is not retried when its status write fails:
  `Conditions.RejectInstance` answers it with neither error nor requeue, whatever becomes of the write.
- `containerPortsMatch` checks inclusion one way only; `ContainerPorts.ExactForAllOnlyIfDistinct`
  shows that it is a permutation check exactly for desired lists without repeated ports.
- An IstioCSR resource in its own namespace is routed elsewhere if the user labels set the mapping
  key; `EventRouting.HomeResourcesRoute` is an equivalence.

## Model

| member | source | states |
|---|---|---|
| `RbacReconciler.Run` | pkg/controller/istiocsr/rbacs.go:57-247 | In every state of every run, whatever fails and whoever interferes, at most one ClusterRole and one ClusterRoleBinding carry the instance's labels, a name recorded earlier is still recorded, and no step changes the role reference of a binding that stays; every undisturbed pass without failures succeeds and leaves the recorded role with the desired rules and the recorded binding referring to it, for the last configuration that counted |
| `ClusterRbac.RoleRefsNeverChange` | pkg/controller/istiocsr/rbacs.go:465-487 | In no step of a run does a binding that stays get another role reference |
| `RbacReconciler.ReconcileRbac` | pkg/controller/istiocsr/rbacs.go:20-32 | A pass keeps safety; undisturbed and without failures it succeeds exactly when no lookup finds several resources, and otherwise reports duplicates; an undisturbed success leaves, field by field, the recorded role live with the desired rules, the recorded binding live with that role's name as its reference and with the desired subjects, both with every label of the instance, and nothing else touched; a deleted role returns under its name with the binding not written; no binding update is refused; duplicate roles or bindings appear exactly when an unrecorded one is no longer findable |
| `RbacReconciler.UpdateSubjects` | pkg/controller/istiocsr/rbacs.go:443-458 | The operand's service account is moved into the instance's namespace, every other subject stays |
| `ClusterRbac.DesiredLabelsAre` | pkg/controller/istiocsr/utils.go:130-135 | The labels of a cluster-scoped resource one by one: the mapping label, the six default labels, the other user labels, and no more |
| `RbacReconciler.CreateOrApplyClusterRoles` | pkg/controller/istiocsr/rbacs.go:57-135 | Safety under failures and interference, the name settled on and persisted, the exact resulting roles of an undisturbed success, and exactly when it succeeds and stays free of duplicates |
| `RbacReconciler.CreateOrApplyClusterRoleBindings` | pkg/controller/istiocsr/rbacs.go:172-247 | The same for bindings, and that a binding already as desired is not written |
| `RbacReconciler.SettleRole` | pkg/controller/istiocsr/rbacs.go:68-129 | Lookup by recorded name or label and the write that follows keep the cluster tidy and leave the role only under the name returned |
| `RbacReconciler.ApplyRole` | pkg/controller/istiocsr/rbacs.go:100-129 | An existing role is updated under its name; a missing one is created under the recorded or a generated name |
| `RbacReconciler.ModifyBinding` | pkg/controller/istiocsr/rbacs.go:219-241 | A drifted binding comes back under the name it has, by update or by delete and create |
| `RbacReconciler.HandleBindingModification` | pkg/controller/istiocsr/rbacs.go:465-487 | Update in place or delete for recreation, decided by the role reference; a refused update means the live binding is not the one that was fetched |
| `RbacReconciler.FindRole` | pkg/controller/istiocsr/rbacs.go:68-98 | What the lookup tells about the store, and that without failures a duplicate report is made exactly when several roles match |
| `RbacReconciler.RecordStatus` | pkg/controller/istiocsr/rbacs.go:159-170 | Persisting a status whose names are where the resources belong keeps safety |
| `ClusterRbac.DuplicateExactlyWhenUnfindable` | pkg/controller/istiocsr/rbacs.go:80-98 | A tidy cluster stays free of duplicates exactly when an unrecorded resource matches the labels listed by |
| `ClusterRbac.EditedLabelsDuplicate` | pkg/controller/istiocsr/rbacs.go:80-98 | A concrete label edit between a lost status write and the next pass that leads to two roles |
| `ClusterRbac.SoundMeans` | pkg/controller/istiocsr/rbacs.go:149-170 | In a sound trace every earlier state had at most one resource of each kind and a name that is still recorded |
| `ClusterRbac.DesiredIsMine` | pkg/controller/istiocsr/utils.go:130-135 | Whatever the user labels, desired labels identify the instance |
| `SingletonElection.DisallowMultipleInstances` | pkg/controller/istiocsr/utils.go:396-453 | For a listing in any order: rejected already exactly with the annotation, failed exactly when the listing failed, rejected exactly when the listing shows another instance at least as old, and accepted otherwise |
| `SingletonElection.StepVerdicts` | pkg/controller/istiocsr/utils.go:396-453 | Exactly which steps accept and reject an instance; a reconcile whose listing fails changes nothing that is stored |
| `SingletonElection.VerdictsComeFromSteps` | pkg/controller/istiocsr/utils.go:396-453 | Over every run, the accepted and the rejected are exactly those whom some step accepted or rejected |
| `SingletonElection.AcceptedLosesOnlyToTies` | pkg/controller/istiocsr/utils.go:423-430 | An accepted instance is rejected later only when another one was created at the very same time |
| `SingletonElection.AcceptedThenRejected` | pkg/controller/istiocsr/utils.go:423-430 | A run in which that happens |
| `SingletonElection.AcceptedExactlyWhenOldest` | pkg/controller/istiocsr/utils.go:409-436 | An instance without the annotation is accepted exactly when strictly older than all others |
| `SingletonElection.AtMostOneAccepted` | pkg/controller/istiocsr/utils.go:396-453 | After every interleaving, with failing writes and stale reads, at most one live instance has ever been accepted |
| `SingletonElection.RejectionIsFinal` | pkg/controller/istiocsr/utils.go:399-407 | An instance whose rejection was persisted is accepted by nothing that happens later |
| `SingletonElection.TiesAreRejected` | pkg/controller/istiocsr/utils.go:423-430 | Equally old instances are not accepted |
| `Strings.SplitCutsOnce` | pkg/controller/common/container_args.go:34-39 | Splitting on the separator and re-joining the tail cuts at the first separator |
| `ContainerArgs.ParseArgMap` | pkg/controller/common/container_args.go:32-43 | The loop overrides the map with the last-writer-wins map of the list |
| `ContainerArgs.MergeContainerArgs` | pkg/controller/common/container_args.go:12-29 | For every iteration order of the map, the one strictly sorted listing of the merged map |
| `ContainerArgs.ParseMerge` | pkg/controller/common/container_args.go:12-43 | Re-parsing a merged list gives the override of the two maps, but for the vanishing pair |
| `ContainerArgs.MergeEqual` | pkg/controller/common/container_args.go:12-29 | Two merges give the same list exactly when the merged maps agree |
| `ContainerArgs.MergeIdempotent` | pkg/controller/common/container_args.go:12-29 | Merging an override again changes nothing, exactly unless the source has the vanishing pair and the override lacks its key |
| `ContainerArgs.MergeAssociative` | pkg/controller/common/container_args.go:12-29 | Merging is associative exactly when the vanishing pair does not interfere |
| `ContainerArgs.ParseStrip` | pkg/controller/common/container_args.go:46-59 | Stripping keys from a list removes them from its map, with any duplicates |
| `ContainerArgs.StripArgsByKeys` | pkg/controller/common/container_args.go:46-59 | The loop computes the stripped list, and an empty key set leaves it as it is |
| `ContainerEnv.MergeContainerEnvs` | pkg/controller/certmanager/deployment_helper.go:19-35 | For every iteration order, the variables of the merged map in strict order of their names |
| `ContainerEnv.ParseMerge` | pkg/controller/certmanager/deployment_helper.go:19-41 | A merged environment parses to the override of the two maps, always |
| `ContainerEnv.MergeIdempotentAndAssociative` | pkg/controller/certmanager/deployment_helper.go:19-35 | Merging environments is idempotent and associative |
| `TlsProfile.NoCipherSurvives` | pkg/controller/common/tls_profile_hook.go:65-71 | At TLS 1.3 stripping then merging leaves no cipher-suite key, however often the source repeats one |
| `TlsProfile.NoCipherFlagsAtTls13` | pkg/tlsprofile/tlsprofile.go:61-117 | At TLS 1.3 no flag builder emits a cipher-suite flag |
| `TlsProfile.WebhookFlags` | pkg/tlsprofile/tlsprofile.go:61-82 | The cert-manager webhook gets the minimum version on both listeners, and the joined cipher suites exactly below TLS 1.3 |
| `TlsProfile.OperandMetricsFlags` | pkg/tlsprofile/tlsprofile.go:86-102 | The other operands get them on the metrics listener |
| `TlsProfile.TrustManagerFlags` | pkg/tlsprofile/tlsprofile.go:104-117 | trust-manager gets them on its webhook |
| `TlsProfile.HonoredProfile` | pkg/tlsprofile/tlsprofile.go:22-43 | Which profile an APIServer object leads to: none without adherence, the intermediate one by default, a custom one only if given, an error for anything unknown |
| `TlsProfile.FilterIsSound` | pkg/tlsprofile/cluster.go:70-110 | An APIServer update that the filter drops resolves to the same failure, to nothing both times, or to semantically equal profiles, hence to the same trust-manager arguments from any source arguments |
| `TlsProfile.FilterExactly` | pkg/tlsprofile/cluster.go:70-110 | The filter drops exactly the updates that keep adherence and, up to nil slices, the profile; appearing and disappearing count as changes |
| `HookPipeline.RunHooks` | pkg/controller/certmanager/generic_deployment_controller.go:35-79 | Exactly when all hooks pass, input by input; and then image, scheme annotation, arguments and environment are those of a reference that is spelled out flag by flag, per operand and without the builders; an honoured profile is in force on every flag that break-glass does not set; break-glass is in force on every key but for the vanishing pair; on unsupported keys the result is that of no overrides |
| `HookPipeline.FinalArgsAreReference` | pkg/controller/certmanager/generic_deployment_controller.go:35-79 | The override expression over the builders' lists is the reference: solver image, verbosity, the operand's own overrides, TLS profile, metrics certificate, and the operand's own break-glass arguments |
| `HookPipeline.FinalEnvIsReference` | pkg/controller/certmanager/deployment_overrides.go:112-125 | The same for the environment: proxy variables, the operand's own overrides, cloud credentials |
| `HookPipeline.HooksPassExactly` | pkg/controller/certmanager/deployment_overrides_validation.go:94-215 | What the hooks ask, with the supported flags and variables written out |
| `HookPipeline.ReferenceProfileInForce` | pkg/controller/common/tls_profile_hook.go:55-71 | In the reference, minimum version and cipher suites of an honoured profile are set on each listener, or absent at TLS 1.3, unless break-glass sets them |
| `HookPipeline.OverridesOnlySupported` | pkg/controller/certmanager/deployment_overrides_validation.go:94-131 | Two supported override lists give results that agree on every unsupported key, after printing and parsing too |
| `HookPipeline.UnsupportedWins` | pkg/controller/certmanager/deployment_unsupported_overrides.go:16-36 | In the parsed result break-glass arguments win on a key exactly unless they set the empty key to the empty value; on every key when the argument `=` is not among them |
| `HookPipeline.BareSeparatorIsLost` | pkg/controller/certmanager/deployment_unsupported_overrides.go:16-36 | The break-glass argument `=` mentions a key that the result never has |
| `HookPipeline.NoCipherSuitesAtTls13` | pkg/controller/common/tls_profile_hook.go:55-71 | With TLS 1.3 honoured a cipher-suite key is in the result exactly if break-glass put it there |
| `HookPipeline.VanishesOnlyFromTheEnds` | pkg/controller/certmanager/generic_deployment_controller.go:35-79 | The pair that printing loses can come only from the manifest or break-glass; without the argument `=` there the result is the plain expression |
| `HookPipeline.Deployment.WithOperandImageOverride` | pkg/controller/certmanager/deployment_overrides.go:78-90 | Every image is replaced, and a single-container controller gets the solver image flag |
| `HookPipeline.Deployment.WithLogLevel` | pkg/controller/certmanager/deployment_log_level.go:20-31 | The verbosity flag of a known level is merged into the first container |
| `HookPipeline.Deployment.WithContainerArgsOverride` | pkg/controller/certmanager/deployment_overrides.go:94-108 | A non-empty override is merged into a single container; a missing CertManager or unknown operand is an error |
| `HookPipeline.Deployment.WithContainerEnvOverride` | pkg/controller/certmanager/deployment_overrides.go:112-125 | The same for the environment |
| `HookPipeline.Deployment.WithCloudCredentials` | pkg/controller/certmanager/credentials_request.go:32-125 | The controller gets the credentials variable, or the hook fails |
| `HookPipeline.Deployment.WithClusterTlsProfile` | pkg/controller/common/tls_profile_hook.go:27-74 | When the hook succeeds, and the strip-then-merge it performs for an honoured profile |
| `HookPipeline.Deployment.WithOperandMetricsTls` | pkg/controller/certmanager/deployment_metrics_tls.go:20-40 | Metrics flags and the scheme annotation for known operands; exactly one container is demanded |
| `HookPipeline.Deployment.WithUnsupportedArgsOverride` | pkg/controller/certmanager/deployment_unsupported_overrides.go:16-50 | The operand's break-glass list is merged last |
| `HookPipeline.ContainerArgsValid` | pkg/controller/certmanager/deployment_overrides_validation.go:94-135 | Valid exactly when every overridden key is supported and the performance checks pass |
| `HookPipeline.ContainerEnvValid` | pkg/controller/certmanager/deployment_overrides_validation.go:182-215 | Valid exactly when every overridden variable is supported |
| `ReconcileErrors.ClassIsOutermost` | pkg/controller/common/errors.go:93-118 | The class of any chain of layers is that of its outermost reconcile error, through any number of plain wraps |
| `ReconcileErrors.IrrecoverabilityKept` | pkg/controller/common/errors.go:82-91 | Plain wraps and FromError neither lose nor invent irrecoverability |
| `ReconcileErrors.ClientErrorDecidesAfresh` | pkg/controller/common/errors.go:70-80 | A client-error layer is irrecoverable exactly when the API status below is one of five permanent ones |
| `ReconcileErrors.ApiErrorsByStatus` | pkg/controller/common/errors.go:70-80 | Which API statuses become irrecoverable and which retryable, whatever layers come in between |
| `ReconcileErrors.ClientErrorCanLoseIrrecoverability` | pkg/controller/common/errors.go:70-80 | An irrecoverable error that a client-error layer makes retryable |
| `ReconcileErrors.LayersKeepStatus` | pkg/controller/common/errors.go:125-128 | No layer hides or invents the API status |
| `ReconcileErrors.InvalidCaIsIrrecoverable` | pkg/controller/istiocsr/deployments.go:283-349 | An unusable user CA stays irrecoverable on its way up to the reconcile result |
| `Conditions.ConditionalStatus.GetCondition` | api/operator/v1alpha1/conditions.go:38-45 | The first condition of the kind, or none |
| `Conditions.ConditionalStatus.SetCondition` | api/operator/v1alpha1/conditions.go:47-67 | Append or overwrite in place, changed exactly when status or reason differ |
| `Conditions.SetThenGet` | api/operator/v1alpha1/conditions.go:38-67 | What reading any kind gives after a set, and when a set is the identity |
| `Conditions.ReportShows` | pkg/controller/common/reconcile_result.go:25-75 | After reporting, which outcomes the conditions show: that one, and another only where a rejection and an irrecoverable failure look alike; ready excludes degraded, and kinds stay unique |
| `Conditions.HandleReconcileResult` | pkg/controller/common/reconcile_result.go:16-76 | What Ready and Degraded say for each result, with status, reason and message; a write exactly when something changes; what is persisted depends on the commit and not on the answer; a retryable failure is answered by exactly one of error and requeue; any other outcome by an error exactly when its write is not answered |
| `Conditions.ReadyAfterRun` | pkg/controller/common/reconcile_result.go:25-75 | After any run Ready is true exactly if the last committed step was a success, and Degraded exactly if the last committed step other than a rejection failed for good |
| `Conditions.ReportInvalidCa` | pkg/controller/common/reconcile_result.go:25-41 | An unusable user CA ends Degraded and not ready once the write is committed, with neither error nor requeue exactly when it is also answered |
| `Conditions.RejectInstance` | pkg/controller/istiocsr/utils.go:396-452 | The Ready condition of a rejected instance is written exactly when it differs and Degraded is left alone; a fresh rejection is answered by an error exactly unless both writes are answered, an annotated instance never |
| `Conditions.StatusStore.UpdateCondition` | pkg/controller/istiocsr/utils.go:385-394 | The error handed in comes back on success; a write that is lost, or committed and not answered, yields an error that is not irrecoverable |
| `Conditions.RunOutcomes` | pkg/controller/istiocsr/controller.go:221-250 | Successive reconciles, rejected ones included, are the runs that the run lemmas speak about, with the same numbers of attempted and committed writes, and with the answers that the fates of the writes entail |
| `Conditions.OneCommitPerChange` | pkg/controller/common/reconcile_result.go:25-75 | Over every run, one committed write for each committed step that reports a condition otherwise than the last committed step that spoke about it |
| `Conditions.PlainChanges` | pkg/controller/common/reconcile_result.go:25-75 | Without rejections these are the changes of outcome, plus the first step unless it already shows |
| `Conditions.OneWritePerChange` | pkg/controller/common/reconcile_result.go:25-75 | While no write is lost, answered or not, there are no further attempts |
| `Conditions.UnansweredCostsNothing` | pkg/controller/common/reconcile_result.go:25-75 | Repeating an outcome whose write was committed sends nothing, even if the controller was told that it failed |
| `Conditions.AnswersDoNotMatter` | pkg/controller/istiocsr/utils.go:385-394 | Two runs that differ only in what the controller was told about committed writes persist and write the same |
| `Conditions.MessageOfBlockStart` | api/operator/v1alpha1/conditions.go:47-67 | Over every run, message and transition time are those of the first step of the current block of equal status and reason, among the committed steps that speak about the condition |
| `Conditions.PersistedIsCommitted` | pkg/controller/istiocsr/utils.go:385-394 | What is persisted after any run is the report of the committed steps in turn, and nothing else |
| `Conditions.RunKeepsShape` | api/operator/v1alpha1/conditions.go:38-67 | Kinds stay unique over any run, and a ready operand is never degraded |
| `OptimisticWrites.UpdateWithRetry` | pkg/controller/common/client.go:95-118 | Success means one own write with the caller's content, right after the read it is based on, and is certain when nothing fails and others write fewer than five times without deleting the object; giving up on conflicts means none, and five foreign writes; any failure at most one |
| `OptimisticWrites.UpdateStatus` | pkg/controller/istiocsr/utils.go:52-72 | The same, changing only the status of the object it read |
| `OptimisticWrites.Store.RetryOnConflict` | pkg/controller/trustmanager/utils.go:50-70 | At most five attempts of read and commit, exactly five when giving up, against any interleaving of other writers, each conflict being a foreign write of its own |
| `ContainerPorts.ContainerPortsMatch` | pkg/controller/trustmanager/deployments.go:392-409 | The nested loops decide whether, at equal length, each desired port has an existing one of the same number and name |
| `ContainerPorts.DesiredPortsExact` | pkg/controller/trustmanager/deployments.go:392-409 | With distinct desired ports the check holds exactly for permutations |
| `ContainerPorts.FetchedPortsMatch` | pkg/controller/istiocsr/utils.go:233-247 | The mirrored loops decide whether, at equal length, each fetched number is a desired one |
| `ContainerPorts.FetchedPortsExact` | pkg/controller/istiocsr/utils.go:233-247 | With distinct fetched numbers the check holds exactly for permutations |
| `ContainerPorts.ExactForAllOnlyIfDistinct` | pkg/controller/trustmanager/deployments.go:392-409 | The check is exact against every existing list exactly when the desired ports are distinct |
| `TrustDeployment.ManagedEntriesModified` | pkg/controller/trustmanager/utils.go:199-225 | Drift of managed labels or annotations, for every iteration order |
| `TrustDeployment.CheckDeploymentModified` | pkg/controller/trustmanager/deployments.go:328-365 | Every managed field is compared, containers one by one |
| `TrustDeployment.CheckContainerModified` | pkg/controller/trustmanager/deployments.go:367-390 | Every managed container field is compared |
| `TrustDeployment.UnmodifiedMeans` | pkg/controller/trustmanager/deployments.go:328-409 | The check is complete and raises no false alarm: an unmodified verdict means, field by field, that the live deployment is as desired, apart from unmanaged metadata, the order of ports and defaulted probe fields |
| `TrustDeployment.AppliedUnmodified` | pkg/controller/trustmanager/deployments.go:328-390 | No drift is left after an apply, whatever was there before |
| `TrustDeployment.ForeignMetadataIgnored` | pkg/controller/trustmanager/utils.go:196-225 | Adding, changing or removing labels and annotations under unmanaged keys never changes the verdict on the deployment |
| `TrustManager.UnobtrusiveHarmless` | pkg/controller/trustmanager/utils.go:196-225 | Metadata under keys that the controller does not manage on a resource, on any of its resources, leaves a converged cluster converged and an unconverged one unconverged |
| `TrustDeployment.GetDeploymentObject` | pkg/controller/trustmanager/deployments.go:48-94 | The in-place builder computes one deterministic desired object, or the first failure |
| `TrustDeployment.DesiredExactlyWhenBuildable` | pkg/controller/trustmanager/deployments.go:48-125 | There is a desired deployment exactly when manifest, TLS profile, image and scheduling settings are valid, whatever labels, hash and account are |
| `TrustDeployment.Builder.ApplyWebhookTlsArgs` | pkg/controller/trustmanager/deployment_tls.go:41-59 | The first trust-manager container is rewritten, and at TLS 1.3 no cipher-suite key is left in it, for any source arguments |
| `TrustDeployment.Builder.UpdateDefaultCaPackageVolume` | pkg/controller/trustmanager/deployments.go:171-216 | Hash annotation, volume and mount, replacing earlier ones of the same name or path |
| `TrustDeployment.Builder.UpdateDeploymentArgs` | pkg/controller/trustmanager/deployments.go:129-165 | Every trust-manager container gets the argument list, the others keep theirs |
| `TrustDeployment.Builder.UpdateTlsSecretVolume` | pkg/controller/trustmanager/deployments.go:315-322 | The first TLS secret volume is pointed at the secret |
| `TrustDeployment.DesiredStamped` | pkg/controller/trustmanager/deployments.go:171-179 | Every desired pod template carries the account's UID and, when enabled, the bundle hash |
| `TrustDeployment.DesiredAsConfigured` | pkg/controller/trustmanager/deployments.go:48-94 | Every desired deployment has, spelled out, the configured account, image, resources, flags with the honoured TLS profile, TLS secret, CA package volume and mount, and scheduling |
| `TrustDeployment.UnmodifiedAsConfigured` | pkg/controller/trustmanager/deployments.go:328-390 | So has every live deployment with an unmodified verdict |
| `TrustDeployment.DeploymentArgsAre` | pkg/controller/trustmanager/deployments.go:129-165 | The argument list parses to the documented flags and values, the three optional ones exactly when their feature is on |
| `TrustDeployment.DesiredHasNoCiphers` | pkg/controller/trustmanager/deployment_tls.go:18-59 | With TLS 1.3 honoured no desired deployment sets cipher suites in the trust-manager container, for any manifest |
| `TrustManager.Run` | pkg/controller/trustmanager/install_trustmanager.go:11-71 | Over every run of passes and outside edits: no sends after a successful pass while only foreign metadata changes, the package alone while the bundle stays, after each success every resource is live and the deployment runs the configured image, flags, TLS profile, UID and hash, a pass without failures succeeds exactly when it can, and everything sent carries its labels and annotations, one by one; the log accounts for everything sent |
| `TrustManager.LeakExactly` | pkg/controller/trustmanager/rbacs.go:141-152 | A resource of the pass carries the aggregation label exactly when it is built with or after the cluster-view role, or when the user labels set it |
| `TrustManager.PodsCarryRoleLabel` | pkg/controller/trustmanager/rbacs.go:141-152 | Without any user labels the pod template carries the aggregation label |
| `TrustManager.Cluster.BuildStatic` | pkg/controller/trustmanager/rbacs.go:141-152 | The cluster-view builder changes the shared labels, every other builder takes them as they are; the webhook configuration adds its injection annotation |
| `TrustManager.Cluster.CreateOrApplyStatics` | pkg/controller/trustmanager/rbacs.go:17-54 | The RBAC resources, services, issuer and certificate in order, each with the labels the shared map has by then, applied only when missing or drifted |
| `TrustManager.Cluster.Reconcile` | pkg/controller/trustmanager/install_trustmanager.go:11-71 | From any state and wherever it stops, success converges and comes, without failures, exactly when the pass can succeed; every apply claims the metadata managed for its resource; over a converged cluster nothing is sent or changed; if only the package is behind, at most the package is applied and the deployment stays |
| `TrustManager.Cluster.CreateOrApplyPackage` | pkg/controller/trustmanager/configmaps.go:30-96 | The package follows the injected bundle and its resource version, applied only when behind, and the hash of the bundle is returned |
| `TrustManager.Cluster.CreateOrApplyAccount` | pkg/controller/trustmanager/serviceaccounts.go:15-43 | Applied only when missing or drifted, keeping the UID of an existing account |
| `TrustManager.Cluster.CreateOrApplyDeployment` | pkg/controller/trustmanager/deployments.go:20-46 | On success as desired for the live account and the hash, and applied exactly when missing or drifted before |
| `TrustManager.Cluster.UpdateStatusObservedState` | pkg/controller/trustmanager/install_trustmanager.go:87-120 | The observed state is persisted, and written only when a field differs |
| `TrustManager.StaysConverged` | pkg/controller/trustmanager/install_trustmanager.go:11-71 | A cluster is still converged before any later pass if only passes, failed ones too, and foreign metadata came in between |
| `TrustManager.ConvergedInForce` | pkg/controller/trustmanager/deployments.go:291-311 | What convergence means, spelled out: package contents, account, every static resource, observed state, and a deployment with the image, flags, TLS profile, UID, hash and labels of the moment |
| `TrustManager.RewriteUpdatesPackageOnly` | pkg/controller/trustmanager/configmaps.go:113-119 | A rewrite that changes only the resource version leads to one apply of the package, with the new version, and leaves the deployment unpatched |
| `CacheSelectors.BuildCacheObjectList` | pkg/operator/setup_manager.go:245-265 | Succeeds exactly when every value that selects something is valid; after any sequence of registrations a managed type has one entry, which selects exactly the registered values, and every custom resource has an unfiltered one |
| `CacheSelectors.AddControllerCacheConfig` | pkg/operator/setup_manager.go:271-307 | One entry per type is kept and the value joins those registered; over valid entries it fails exactly for an invalid value |
| `CacheSelectors.FindExistingCacheEntry` | pkg/operator/setup_manager.go:312-320 | An entry of the type if there is one, for every iteration order |
| `CacheSelectors.AllValuesAreRegistered` | pkg/operator/setup_manager.go:271-307 | The values accumulated for a type are exactly those registered for it |
| `LabelKeys.ValidateMatchAndMismatchLabelKeys` | pkg/controller/common/core_validation_helpers.go:134-180 | No error exactly under the four conditions, and one duplicate error per mention of a match key beyond its first |
| `LabelKeys.ValidateSelector` | pkg/controller/common/core_validation_helpers.go:149-169 | As many errors as the excess mentions, each naming a match key mentioned more than once |
| `LabelKeys.ValidateLabelKeys` | pkg/controller/common/core_validation_helpers.go:184-199 | No error exactly when the keys are valid names that come with a selector |
| `LabelKeys.TotalExcessStep` | pkg/controller/common/core_validation_helpers.go:158-168 | One more mention adds one exactly when the key was mentioned before |
| `EventRouting.WatchedObjectsRoute` | pkg/controller/istiocsr/controller.go:88-132 | A watch-labelled object routes back exactly when neither namespace nor name contains an underscore |
| `EventRouting.OthersAreIgnored` | pkg/controller/istiocsr/controller.go:88-132 | Objects that are neither the controller's nor watch-labelled lead nowhere, and no event leads to two requests |
| `EventRouting.MappedResourcesRoute` | pkg/controller/istiocsr/utils.go:130-135 | Resources with the mapping label route home from any namespace, whatever the user labels |
| `EventRouting.HomeResourcesRoute` | pkg/controller/istiocsr/install_istiocsr.go:16-22 | Resources in the home namespace route home exactly when user labels do not redirect them |
| `EventRouting.SplitWatchLabel` | pkg/controller/istiocsr/deployments.go:641-653 | The watch label splits into two parts exactly when neither part contains the separator |

## Left out

- API-server defaulting and field ownership of server-side apply: an apply gives back what was applied, plus metadata entries under keys it does not mention.
- Cache staleness: reads of the API server are linearizable.
- Namespaced Roles and RoleBindings, services, certificates and network policies of IstioCSR: fixed names and the same compare-then-write step, which would add only easy members.
- The removal of labels that are no longer desired: the drift checks do not look for it.
- PEM and X.509 parsing, SHA-256, JSON encoding and decoding, OpenSSL cipher names, label-name and label-value validation, performance-argument parsing: parameters or outcomes.
- Pod labels, replicas, resources, scheduling and volumes of the cert-manager operands: their hooks touch neither arguments nor environment; the model keeps their verdicts.
- Logging, events, wall-clock time, process startup, generated clients.
- HookPipeline.ContainerArgsValid: the numeric performance checks are a given predicate on the parsed map.
- LabelKeys.ValidateLabelKeys: one error per invalid name, where the library may report several, and no field paths.
- TrustManager.Cluster.Reconcile: others do not write between the steps of one pass; between passes they may do anything.
- Conditions.RunOutcomes: nobody else writes the conditions, and each pass reads what is persisted.
- RbacReconciler.RecordStatus: the status write is one step here; its retries are modelled in OptimisticWrites.
- SingletonElection.DisallowMultipleInstances: the decision alone; the writes and the answer that follow a rejection are in `Conditions.RejectInstance`, and the annotation it writes is the one of the transition system here.
