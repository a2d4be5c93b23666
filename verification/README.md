# TlnDB operator: a verified model

A Dafny model of the TlnDB Kubernetes operator: the reconcile loop, the builders whose output it
applies, and the chain from a spec to a running topology. Every theorem holds for all specs, all
stores and, where stated, all schedules of faults and interference.

    dafny verify dfyconfig.toml

## How the model is laid out

| part | files |
|---|---|
| values: spec, status, children, strings | `Api.dfy`, `Text.dfy`, `Steps.dfy` |
| builders | `Common.dfy`, `Hashing.dfy`, `ConfigYaml.dfy`, `Workloads.dfy`, `Services.dfy`, `Children.dfy`, `Anatomy.dfy` |
| the API server, faults, other writers | `Cluster.dfy` (functions), `ApiServer.dfy` (class) |
| the controller | `Controller.dfy` (what a pass does), `Reconciler.dfy` (the passes as the source writes them) |
| all schedules: invariants and what they mean | `Invariants.dfy`, `Safety.dfy`, `Runs.dfy`, `Histories.dfy`, `Authorship.dfy` |
| passes without faults | `Plans.dfy`, `Calm.dfy`, `Ordering.dfy`, `CalmPass.dfy`, `Notes.dfy`, `Convergence.dfy`, `Fixpoint.dfy`, `LiveSet.dfy` |
| answers, reports and failures | `Answers.dfy`, `Faults.dfy` |
| crash and retry | `Retry.dfy` |
| observed generations | `Truth.dfy`, `TruthfulRuns.dfy` |
| routing | `Topology.dfy`, `Routing.dfy` |
| change detection, data volumes | `Detection.dfy` |
| specs edited during a pass | `MidPassEdit.dfy` |
| merge patches and their bases | `JsonMergePatch.dfy`, `DeepCopy.dfy` |

**The world.** The server holds the instance and the children, each with a resource version. A
*schedule* says for each call of the controller what others do just before it (edit the spec, request
deletion, report a StatefulSet's status, edit or remove any ConfigMap) and how the call ends: it
succeeds, conflicts, fails, or takes effect while the caller sees a failure. Every write and every
outside step is logged with the state before and after it, and a write with the spec of the copy the
controller held. A *run* is a sequence of passes, each under
its own schedule, and of outside steps between them.

**The controller twice.** `Reconciler` has the source's methods, branch by branch, over a mutable
server and a mutable copy of the instance that every patch response overwrites. Each is proved equal, for
every schedule, to a function in `Controller`; the theorems are about those functions.

**Children.** StatefulSets, Services, ConfigMaps and RoleBindings have their fields. The contents of the
other kinds are opaque settings under their keys.

## What the theorems found

- *Specs edited during a pass.* A patch response brings the edited spec into a pass that has already
  computed the configuration digest. The StatefulSets are then built from the new spec and stamped with
  the old digest. `MidPassEditMiswires` is the whole run: no call fails, the spec is edited during a pass
  and edited back after it, and the next pass leaves a set that satisfies the update test and listens on
  the wrong ports. `DetectionIsExact` says when that is harmless: exactly when the spec of the template and the
  spec of the digest have the same ports. The same window lets `observedGeneration` name a generation
  whose children are missing (`UnworkedGenerationIsRecorded`). Truthfulness and the soundness of change
  detection are therefore stated for runs that edit specs between passes only (`steady` runs are such runs with
  rendered configurations and no hash annotation of the user's); everything else holds with edits at any time.
- *What the update test does not see.* `OplogRetention`, every other field outside replicas, rendered
  text and image, and any configuration change when the user sets the hash annotation.
- *Leftovers.* Only the follower set is ever pruned. Switching from replicated to standalone leaves the
  leader set running, and the standalone Service, whose selector names no role, keeps reaching it.
- *Negative read replicas* would select follower pods that the same pass removes. The CRD's minimum of 0
  (`api/v1alpha1/tlndb_types.go:122`) keeps such specs from reaching the controller, so on every spec it admits reads are served.
- *Addresses that name no port*, such as ":0", are handed to the server as they are while container and
  Service use the default port (`UnnamedPortIsNotServed`).
- *Persistence toggled after creation* leaves the data mount with two backings or none.
- The comment on `createOrUpdateStatefulSet` speaks of claim templates only; the model shows that the
  selector and the service name are kept as well.

## Model

| member | source | states |
|---|---|---|
| `Common.CopyInto` | internal/resources/common.go:113-120 | copying one map over another gives the union in which the second map wins |
| `Common.FootprintsDisjoint` | internal/resources/common.go:59-72 | two instances of a namespace can touch a common key if and only if one name is the other plus -leader, -follower, -read or -headless |
| `Common.SelectionIsExact` | internal/resources/common.go:75-120 | a role selector selects pods of that instance and role only; the bare selector selects every role of the instance |
| `Common.PortFromAddrExact` | internal/resources/common.go:153-166 | the result is p exactly when the text after the last colon is an optionally plus-signed decimal of value p in 1..65535, or p is the default and no port is named |
| `Common.FormattedPortParsesBack` | internal/controller/tlndb_controller.go:195-196 | a port formatted into an address is read back from it |
| `Text.SortedIsUnique` | internal/resources/common.go:184-190 | two sorted permutations of the same strings are equal, so the order in which a map is ranged over does not matter |
| `Hashing.OrderIndependent` | internal/resources/common.go:184-198 | any two enumerations of a map's keys serialize to the same bytes |
| `Hashing.CollectKeys` | internal/resources/common.go:185-188 | the loop collects every key exactly once |
| `Hashing.WriteEntries` | internal/resources/common.go:192-198 | the loop writes the entries in the order of the keys |
| `Hashing.HashSecretData` | internal/resources/common.go:184-200 | the digest is that of the canonical serialization |
| `Hashing.HashStringData` | internal/resources/common.go:202-208 | likewise for string data, through the copying loop |
| `Hashing.SingleKeyInjective` | internal/resources/common.go:184-208 | serialization is injective on maps with one common key, whatever the values contain |
| `Hashing.LineSafeInjective` | internal/resources/common.go:184-208 | serialization is injective on maps whose keys have no '=' or newline and whose values have no newline |
| `Hashing.NewlineImitatesKey` | internal/resources/common.go:184-208 | outside that domain it is not: a newline in a value imitates a second key |
| `ConfigYaml.WriteListeners` | internal/resources/configmap.go:46-63 | the mandatory lines, with the defaults filled in |
| `ConfigYaml.RenderConfigYaml` | internal/resources/configmap.go:43-75 | the text built line by line is the rendering the round trips below are about |
| `ConfigYaml.QuotedStaysOnOneLine` | internal/resources/configmap.go:61-69 | a quoted value contains no line break |
| `ConfigYaml.QuoteRoundTrip` | internal/resources/configmap.go:61-69 | reading a quoted value as a double-quoted YAML scalar (sections 5.7 and 7.3.1 of YAML 1.2.2) gives the value and the text after it |
| `ConfigYaml.ListenersRoundTrip` | internal/resources/configmap.go:43-75 | whatever is appended, database path and both listen addresses read back |
| `ConfigYaml.ConfigRoundTrip` | internal/resources/configmap.go:43-75 | with nothing appended, all settings read back, the optional ones included |
| `ConfigYaml.DecodedFields` | internal/resources/configmap.go:43-75 | what is read back, field by field in the spec's own fields: given values as they are, the defaults, socket and metrics only where set |
| `ConfigYaml.AppendedText` | internal/resources/configmap.go:70-73 | appended text goes in without the blanks around it and with one newline; text of blanks adds nothing |
| `ConfigYaml.EqualTextExactly` | internal/resources/configmap.go:43-75 | with nothing appended, two specs render equal text if and only if their effective settings are equal |
| `ConfigYaml.EqualTextEqualPorts` | internal/resources/configmap.go:43-75 | equal text means equal gRPC and HTTP ports, whatever is appended |
| `ConfigYaml.ListensOnServedPorts` | internal/resources/configmap.go:50-57 | the address the server is told to listen on names the container and Service port if and only if the spec gives no address or one that names a port; for both listeners |
| `ConfigYaml.UnnamedPortIsNotServed` | internal/resources/common.go:153-166 | the condition is needed: with ":0" the server is told ":0" and the container port is the default |
| `ConfigYaml.MetricsLineCanBeImitated` | internal/resources/configmap.go:67-73 | equal text does not mean equal metrics settings: for every spec with metrics there is another without that renders the same |
| `Workloads.BuildMainContainer` | internal/resources/statefulset.go:153-189 | ports, environment, mounts and probes, with the operator's variables after the user's |
| `Workloads.BuildVolumes` | internal/resources/statefulset.go:231-272 | the config volume, at most one data volume, then the user's; `DataByCase` says which |
| `Workloads.BuildLabels` | internal/resources/common.go:113-120 | the instance's labels, copied, with the role added |
| `Workloads.BuildTemplate` | internal/resources/statefulset.go:91-135 | the pod template, with the user's annotations over the hash annotation |
| `Workloads.BuildWorkload` | internal/resources/statefulset.go:91-144 | the StatefulSet of a role, with selector, template and claim templates; `DataByCase`, `TemplateCarriesUser` and the rows after them say what is in it |
| `Workloads.RoleEnvWins` | internal/resources/statefulset.go:60-82 | whatever the user's environment, the last TLNDB_ROLE is leader in leader pods and follower in follower pods, and a follower's last TLNDB_REPLICATE_FROM is the leader address |
| `Workloads.TemplateDataVolumes` | internal/resources/statefulset.go:231-272 | a template brings exactly one data volume when no claim is templated, and none otherwise |
| `Anatomy.DataByCase` | internal/resources/statefulset.go:231-272 | by the spec's fields: unless persistence is switched off, a claim per pod or the given claim; only then an emptyDir; never two |
| `Anatomy.MountedIsHashed` | internal/resources/statefulset.go:231-251 | pods mount the ConfigMap whose digest is stamped on them if and only if the reference is not the empty name |
| `Anatomy.PathsAreMounted` | internal/resources/statefulset.go:153-189 | the --config argument is the file in the config mount, and the default database lies on the data mount |
| `Anatomy.TemplateCarriesUser` | internal/resources/statefulset.go:146-189 | extra containers, mounts, annotations and settings reach the pods, and the main container runs the spec's image |
| `Anatomy.UserEnvReaches` | internal/resources/statefulset.go:178-180 | every variable the operator does not inject has the user's value |
| `Anatomy.RetentionReaches` | internal/resources/statefulset.go:84-89 | a positive retention wins over the user's variable; otherwise the user's value stands |
| `Anatomy.ImageParts` | internal/resources/common.go:136-149 | the digest wins over the tag, and blank parts mean the published repository and the latest tag |
| `Anatomy.DefaultPorts` | internal/resources/configmap.go:50-57 | a blank address means 9899 or 8080, for the server and for the container |
| `Anatomy.MetricsEverywhere` | internal/resources/common.go:168-180 | metrics are on unless switched off; server, container and Service then agree on the port, and otherwise none has one |
| `Anatomy.AccessIsWired` | internal/resources/statefulset.go:309-314 | pods run as the operator's account, which is bound to the role for the rendered ConfigMap, or as the user's |
| `Anatomy.SetsAreGoverned` | internal/resources/service.go:78-94 | sets are governed by the headless Service, which has no address and publishes pods that are not ready |
| `Anatomy.SetSelectors` | internal/resources/statefulset.go:48-82 | a leader or follower set selects the pods of its own role and instance only; a standalone set selects every pod of the instance |
| `Anatomy.DigestIsStamped` | internal/resources/statefulset.go:94-97 | the digest is on the pods under its annotation unless the user sets that one |
| `Anatomy.PolicyAllowsPods` | internal/controller/tlndb_controller.go:253-261 | the NetworkPolicy allows exactly the ports of the main container |
| `Anatomy.ClientServiceLabels` | internal/resources/service.go:47-76 | user labels win over the common ones, and the type defaults to ClusterIP |
| `Anatomy.ChildrenAreOwned` | internal/controller/tlndb_controller.go:365-368 | every child has the instance as its controller |
| `Anatomy.OptionalContents` | internal/controller/tlndb_controller.go:244-291 | each optional child carries its own part of the spec |
| `Anatomy.EntryText` | internal/controller/tlndb_controller.go:145-290 | an entry of managedResources is the kind's name, a slash and the object's name |
| `Anatomy.RevisionIsExact` | internal/controller/tlndb_controller.go:365-597 | what an update writes, kind by kind, and that the rest of the stored object stays |
| `Anatomy.RevisionHappens` | internal/controller/tlndb_controller.go:365-597 | when there is an update at all |
| `Services.BuildServicePorts` | internal/resources/service.go:96-110 | the ports with their named targets |
| `Services.ServiceWith` | internal/resources/service.go:47-76 | type default, merged labels, annotations, selector and ports of a client Service |
| `Services.PortsAreWired` | internal/resources/service.go:96-110 | every Service port resolves, through its named target, to the container port of the same number, and the leader address parses back to the write Service's gRPC port |
| `Children.WantedKeysDiffer` | internal/controller/tlndb_controller.go:136-291 | the children of one spec have distinct keys |
| `Children.PrunedKeyUnwanted` | internal/controller/tlndb_controller.go:204-215 | the key that is pruned is not one that is wanted |
| `Children.ReconciledIsSettled` | internal/controller/tlndb_controller.go:365-597 | after one successful create-or-update a second one changes nothing, for every kind and every stored object |
| `Children.SettledIsAgreement` | internal/controller/tlndb_controller.go:365-597 | a child that no helper would change agrees with its builder on exactly the managed fields, and conversely, for sets with a container |
| `Children.EmptySetIgnoresImage` | internal/controller/tlndb_controller.go:646-650 | the container hypothesis is needed |
| `Reconciler.TlnDBReconciler.CreateOrUpdateConfigMap` | internal/controller/tlndb_controller.go:365-383 | for every schedule, the generic create-or-update with this kind's revision |
| `Reconciler.TlnDBReconciler.CreateOrUpdateServiceAccount` | internal/controller/tlndb_controller.go:385-399 | likewise; labels only |
| `Reconciler.TlnDBReconciler.CreateOrUpdateRole` | internal/controller/tlndb_controller.go:401-419 | likewise; rules and labels when the rules differ |
| `Reconciler.TlnDBReconciler.CreateOrUpdateRoleBinding` | internal/controller/tlndb_controller.go:421-440 | likewise; role, subjects and labels when they differ |
| `Reconciler.TlnDBReconciler.CreateOrUpdateStatefulSet` | internal/controller/tlndb_controller.go:442-468 | likewise; replicas, template and labels when the update test says so |
| `Reconciler.TlnDBReconciler.CreateOrUpdateService` | internal/controller/tlndb_controller.go:486-504 | likewise; everything but the cluster address |
| `Reconciler.TlnDBReconciler.CreateOrUpdateIngress` | internal/controller/tlndb_controller.go:506-523 | likewise; spec, labels and annotations |
| `Reconciler.TlnDBReconciler.CreateOrUpdateNetworkPolicy` | internal/controller/tlndb_controller.go:525-540 | likewise; spec and labels |
| `Reconciler.TlnDBReconciler.CreateOrUpdateServiceMonitor` | internal/controller/tlndb_controller.go:542-557 | likewise; the whole object |
| `Reconciler.TlnDBReconciler.CreateOrUpdateAvailability` | internal/controller/tlndb_controller.go:559-597 | likewise for budgets and autoscalers; an update conflict counts as success |
| `Reconciler.TlnDBReconciler.DeleteStatefulSetIfExists` | internal/controller/tlndb_controller.go:472-484 | deletes what it finds; a missing set, before or at the delete, is success |
| `Reconciler.TlnDBReconciler.SetPhase` | internal/controller/tlndb_controller.go:601-610 | patches phase and time; a conflict is passed over and the copy keeps the phase |
| `Reconciler.TlnDBReconciler.SetCondition` | internal/controller/tlndb_controller.go:612-624 | patches one condition; no failure is reported |
| `Reconciler.TlnDBReconciler.ReconcileAccess` | internal/controller/tlndb_controller.go:137-159 | account, role and binding in order, then the condition, up to the first error; nothing when the user brings an account |
| `Reconciler.TlnDBReconciler.ReconcileConfig` | internal/controller/tlndb_controller.go:161-183 | the rendered or the external ConfigMap, its digest and its condition |
| `Reconciler.TlnDBReconciler.ReconcileServing` | internal/controller/tlndb_controller.go:185-242 | headless Service, sets and client Services of either mode, in order, up to the first error |
| `Reconciler.TlnDBReconciler.ReconcileNetworking` | internal/controller/tlndb_controller.go:244-261 | Ingress and NetworkPolicy, each if enabled, and the policy's condition |
| `Reconciler.TlnDBReconciler.ReconcileMonitor` | internal/controller/tlndb_controller.go:263-273 | the ServiceMonitor if enabled; its failure becomes a condition and the pass goes on |
| `Reconciler.TlnDBReconciler.ReconcileAvailability` | internal/controller/tlndb_controller.go:275-291 | budget and autoscaler, each if enabled |
| `Reconciler.TlnDBReconciler.PersistManaged` | internal/controller/tlndb_controller.go:293-304 | the sorted list, image, time and generation in one patch; a conflict is passed over |
| `Reconciler.TlnDBReconciler.ReconcileResources` | internal/controller/tlndb_controller.go:136-305 | the whole pass over the children with its status patch, for every schedule |
| `Reconciler.TlnDBReconciler.SyncStatus` | internal/controller/tlndb_controller.go:316-361 | phase, readiness and result from the primary set, for every schedule |
| `Reconciler.TlnDBReconciler.ReconcileDeletion` | internal/controller/tlndb_controller.go:122-134 | Terminating, then the finalizer goes, for every schedule |
| `Reconciler.TlnDBReconciler.Reconcile` | internal/controller/tlndb_controller.go:83-120 | the whole pass is the function all theorems are about, for every schedule |
| `Runs.PassIsSafe` | internal/controller/tlndb_controller.go:83-361 | a pass under any schedule of faults and interference keeps every invariant at every event |
| `Runs.RunIsSafe` | internal/controller/tlndb_controller.go:83-361 | so does every run of passes and outside steps |
| `Histories.FreshStartIsOk` | internal/controller/tlndb_controller.go:83-105 | a newly created instance in an empty namespace satisfies the invariants |
| `Histories.RunKeepsImmutables` | internal/controller/tlndb_controller.go:421-504 | between any two moments of any run at which and between which an object exists, a set's selector, service name and claim templates, a Service's address and a binding's role are the same |
| `Histories.RunKeepsSelectors` | internal/resources/statefulset.go:99-121 | at every moment of every run each stored set's selector matches its own template's labels |
| `Histories.RunGrows` | internal/controller/tlndb_controller.go:293-305 | the observed generation never decreases and never exceeds the generation; Terminating is absorbing |
| `Histories.RunStatusIsCoherent` | internal/controller/tlndb_controller.go:316-361 | at every moment, failed and conflicted patches included, a stored Running comes with a true StatefulSetReady condition, and Terminating with a deletion |
| `Histories.RunWritesUnderFinalizer` | internal/controller/tlndb_controller.go:95-134 | every child write of every run happens while the stored instance exists and carries the finalizer, and stays in the instance's footprint |
| `Histories.RunLeavesOthersAlone` | internal/resources/common.go:59-127 | no event of the controller touches a key of an instance whose name is not suffix-related |
| `Authorship.WritersExist` | internal/controller/tlndb_controller.go:442-468 | a stored set that once was not there has a creating event and a last writing event |
| `Authorship.RunSetsAreAuthored` | internal/controller/tlndb_controller.go:442-468 | in every run a stored set is what the specs held at those two events build: everything from the first, replicas and template from the second |
| `Histories.DeletionTouchesNoChild` | internal/controller/tlndb_controller.go:95-134 | a pass that starts with a deletion timestamp writes no child, whatever happens during it |
| `Convergence.EnsuresAreWanted` | internal/controller/tlndb_controller.go:136-291 | the pass ensures a child if and only if the spec wants it |
| `Convergence.PruningIsExact` | internal/controller/tlndb_controller.go:204-215 | it prunes if and only if the spec is replicated without read replicas |
| `Ordering.AllOrdered` | internal/controller/tlndb_controller.go:136-291 | the acts go through the children in one fixed order, none twice |
| `Notes.NotedAlready` | internal/controller/tlndb_controller.go:612-624 | where every condition is already set, setting them again changes nothing |
| `CalmPass.CalmResources` | internal/controller/tlndb_controller.go:136-305 | undisturbed, the pass is one list of acts followed by the status patch |
| `Fixpoint.CalmReconcile` | internal/controller/tlndb_controller.go:83-361 | an undisturbed pass places every wanted child, removes the follower set if none is asked for, changes nothing else, brings the status up to date, and answers by the phase it leaves |
| `Fixpoint.OnePassConverges` | internal/controller/tlndb_controller.go:107-361 | from any store, one undisturbed pass over an active instance makes every wanted child agree with its builder |
| `Fixpoint.FinalizerPass` | internal/controller/tlndb_controller.go:99-105 | a pass over an instance without the finalizer adds it, does nothing else and answers Requeue |
| `Fixpoint.ConvergedIsFixed` | internal/controller/tlndb_controller.go:83-361 | in a converged state a pass changes no child and no status field but LastUpdateTime |
| `Fixpoint.Converges` | internal/controller/tlndb_controller.go:83-361 | at most one finalizer pass and one more converge, and no number of later passes changes anything |
| `Answers.PassReports` | internal/controller/tlndb_controller.go:316-361 | in fields of the stored primary set: Provisioning if and only if its status lags, Running if and only if it does not and enough pods are ready, Degraded otherwise; the ready condition and the answer follow |
| `Answers.PassErrsExactly` | internal/controller/tlndb_controller.go:107-119 | with nothing failing, a pass over an active instance errs if and only if the referenced ConfigMap is missing; it then stores Failed and the condition and touches access objects only |
| `Answers.FailureIsTold` | internal/controller/tlndb_controller.go:163-172 | ConfigMapReady is then False with its reason |
| `Answers.PassTells` | internal/controller/tlndb_controller.go:158-272 | the conditions an undisturbed pass leaves, type by type |
| `Answers.DeletionCompletes` | internal/controller/tlndb_controller.go:122-134 | with nothing failing, a deletion pass finishes, leaves the children alone and lets the instance go, or leaves it Terminating to its other finalizers |
| `Answers.StampedDigestIsStored` | internal/controller/tlndb_controller.go:161-183 | after an undisturbed pass the stamped digest is that of the stored ConfigMap it stands for |
| `Notes.TransitionTime` | internal/controller/tlndb_controller.go:612-635 | a condition's transition time moves exactly when its status does or it is new |
| `Faults.FetchDecides` | internal/controller/tlndb_controller.go:86-93 | an instance that cannot be fetched is an error, one that is gone is not |
| `Faults.FirstPatchDecides` | internal/controller/tlndb_controller.go:107-111 | a failed first patch ends the pass with an error before any child is touched; after a conflict the pass goes on |
| `Faults.RecordingFails` | internal/controller/tlndb_controller.go:301-304 | recording the pass fails exactly when its patch does, conflicts excepted |
| `Faults.SyncAnswers` | internal/controller/tlndb_controller.go:316-361 | the answer of syncStatus under every schedule, from the lookup, the set that was found and the patch |
| `Faults.AddedMeansHeld` | internal/controller/tlndb_controller.go:99-105 | under every schedule Requeue means the finalizer is stored |
| `Faults.FinishedMeansReleased` | internal/controller/tlndb_controller.go:122-134 | under every schedule a deletion pass answers Finished only once the finalizer is gone |
| `Faults.TerminatingFirst` | internal/controller/tlndb_controller.go:124-126 | if Terminating cannot be stored, nothing is released; after a conflict the finalizer is removed all the same |
| `Faults.UpdateConflict` | internal/controller/tlndb_controller.go:573-596 | an update conflict is passed over for budgets and autoscalers and is an error for every other kind |
| `Faults.PruningSucceeds` | internal/controller/tlndb_controller.go:472-484 | pruning succeeds whenever its calls do, also if the object disappears in between |
| `Faults.MonitorNeverFails` | internal/controller/tlndb_controller.go:263-273 | whatever happens to the ServiceMonitor the pass goes on, and it is listed exactly when it is in place |
| `Faults.MonitorFailureIsTold` | internal/controller/tlndb_controller.go:266-268 | a ServiceMonitor that cannot be reached is told in its condition |
| `Faults.UnreachableConfigSaysNothing` | internal/controller/tlndb_controller.go:165-172 | a ConfigMap that cannot be fetched ends the pass without being called missing |
| `LiveSet.DesiredByFields` | internal/controller/tlndb_controller.go:136-291 | the children a spec asks for, by its fields and by their names |
| `LiveSet.ManagedTextsListDesired` | internal/controller/tlndb_controller.go:293-296 | managedResources is strictly sorted, without duplicates, and lists exactly the desired children |
| `LiveSet.LiveSetIsExact` | internal/controller/tlndb_controller.go:136-305 | over every fault-free sequence of specs the stored keys are the fold that adds what each spec wants and removes only the follower key, and every listed resource is present |
| `Retry.StopsMidway` | internal/controller/tlndb_controller.go:136-305 | wherever a faulty pass stops, each key is as it was or as a complete pass would leave it |
| `Retry.CrashRetry` | internal/controller/tlndb_controller.go:83-305 | a complete pass after a pass that stopped anywhere, failed writes that took effect included, leaves the children a complete pass alone leaves, addresses aside |
| `TruthfulRuns.PassIsTruthful` | internal/controller/tlndb_controller.go:136-305 | whatever fails and whoever interferes without editing the spec, a generation a pass records is the stored one or the one before a deletion request; at some moment of that pass its configuration was there, in place or with the digest of the data read, and at the record every other mandatory child built with that digest is in place |
| `TruthfulRuns.AnswerMeansInPlace` | internal/controller/tlndb_controller.go:107-119 | whatever fails and whoever interferes without editing the spec, a pass over an active instance that does not answer with an error has seen its configuration and leaves every other mandatory child in place |
| `TruthfulRuns.RunIsTruthful` | internal/controller/tlndb_controller.go:136-305 | over whole runs each recorded generation is so vouched for, and the stored one is one that was recorded |
| `TruthfulRuns.ConfigMapStaysInPlace` | internal/controller/tlndb_controller.go:175-183 | if nobody changes the operator's ConfigMap after it was seen, it too is in place at the record |
| `MidPassEdit.SplitPass` | internal/controller/tlndb_controller.go:161-305 | a pass whose spec is edited just before its configuration condition is patched leaves children of the new spec with the digest of the old one and records the new generation |
| `MidPassEdit.UnworkedGenerationIsRecorded` | internal/controller/tlndb_controller.go:136-305 | truthfulness needs its hypothesis: such a pass records a generation whose service account is missing |
| `MidPassEdit.MidPassEditMiswires` | internal/controller/tlndb_controller.go:161-242 | change detection needs its hypothesis: after that pass, the edit back and one more pass, nothing failing, the stored set satisfies the update test and has the wrong ports |
| `MidPassEdit.AnyOtherPortIsMissed` | internal/controller/tlndb_controller.go:639-652 | so for every clean standalone spec with a service account of its own and every other gRPC port, from an empty namespace |
| `Topology.SelectorReach` | internal/resources/service.go:27-45 | among all sets stored in the namespace a role selector selects exactly the set of that role, the bare selector exactly the instance's sets |
| `Topology.ChildNames` | internal/resources/common.go:57-127 | the names the children stand under |
| `Topology.SettledIsSized` | internal/resources/statefulset.go:48-82 | how many pods each set has, and that the follower set is there if and only if read replicas are asked for |
| `Topology.SettledHeadless` | internal/resources/service.go:78-94 | the headless Service reaches exactly the instance's sets |
| `Topology.SettledHasSingleWriter` | internal/resources/service.go:33-35 | with settled children the Service under the instance's name serves the gRPC port and reaches exactly the leader set, which has one replica and runs as leader, while followers run as followers and replicate from that Service's DNS name at the port they listen on |
| `Topology.SettledServesReads` | internal/resources/service.go:37-45 | the read Service reaches a set with a replica if and only if readReplicas is not negative, which the CRD guarantees |
| `Topology.SettledStandaloneRouting` | internal/resources/service.go:25-29 | the standalone Service reaches its own set only, if and only if no leader or follower set is stored |
| `Topology.PlainHasNoLeftovers` | internal/controller/tlndb_controller.go:192-242 | in runs that were never replicated there is no leader or follower set |
| `Routing.RunRoutes` | internal/controller/tlndb_controller.go:192-242 | after every run, mode switches and faults included, one undisturbed pass establishes all of this |
| `Routing.FollowersReplicateFromLeader` | internal/controller/tlndb_controller.go:194-209 | in steady runs, after an undisturbed pass, followers replicate from the very address and gRPC port of the Service that reaches exactly the leader |
| `Routing.LeftoverLeaderIsReached` | internal/controller/tlndb_controller.go:229-242 | every switch from replicated to standalone, external configurations included, leaves a leader set that the Service reaches |
| `Detection.DetectsExactly` | internal/controller/tlndb_controller.go:639-652 | between sets of clean specs the test is true if and only if replicas, rendered text or image differ |
| `Detection.DetectionIsSound` | internal/controller/tlndb_controller.go:639-652 | when the test is false, the stored gRPC, HTTP and probe ports and the replication source are the desired ones, assuming only that the two hashed texts do not collide |
| `Detection.RunDetectionIsSound` | internal/controller/tlndb_controller.go:456-467 | so it is at every moment of every steady run |
| `Detection.DetectionIsExact` | internal/controller/tlndb_controller.go:639-652 | a set with one spec's template and another's digest that passes the test is wired as wanted if and only if those two specs have the same ports |
| `Detection.RunWiring` | internal/controller/tlndb_controller.go:193-242 | in every run, edits at any time included, a stored set is wired as an instance wants if and only if the spec held at its last write has that instance's ports |
| `Detection.BlankExtraCoversMetrics` | internal/resources/configmap.go:67-73 | with nothing appended the metrics port is covered too |
| `Detection.RetentionEscapes` | internal/resources/statefulset.go:84-89 | a changed retention, switching it on or off included, is never noticed |
| `Detection.MetricsEscape` | internal/resources/configmap.go:67-73 | switched-off metrics go unnoticed behind an imitated line |
| `Detection.AnnotationEscapes` | internal/resources/statefulset.go:94-97 | a user annotation under the hash key hides every change of configuration |
| `Detection.DataVolumeBacking` | internal/resources/statefulset.go:231-272 | the data mount has one backing if and only if the creating and the last writing spec agree on claiming per pod (persistence not switched off, no claim given); otherwise two or none |
| `Detection.RunDataBacking` | internal/controller/tlndb_controller.go:456-466 | in every run, with c the event that created a stored set and l the event that last wrote it, there is one backing if and only if the specs the controller held at c and at l agree; otherwise two or none |
| `Detection.BackedAtCreation` | internal/resources/statefulset.go:137-141 | at creation there is exactly one |
| `JsonMergePatch.MergePatchRoundTrip` | internal/controller/tlndb_controller.go:295-303 | applying the patch from a to b to a (section 2 of RFC 7396) gives b if and only if b brings no null field of its own |
| `JsonMergePatch.StatusPatchIsMergeStatus` | internal/controller/tlndb_controller.go:601-624 | with zero values left out, patching any encoded status is merging field by field |
| `JsonMergePatch.DocumentPatchIsMergeStatus` | internal/controller/tlndb_controller.go:332-353 | on the whole object, metadata and spec of whatever is stored stay and the status is merged |
| `JsonMergePatch.PatchYieldsIntendedStatus` | internal/controller/tlndb_controller.go:295-303 | on a store equal to the base the patch yields exactly the changed status |
| `DeepCopy.StatusStruct.DeepCopyInto` | api/v1alpha1/zz_generated.deepcopy.go:567-585 | the same value, and no slice or pointer shared |
| `DeepCopy.StatusStruct.SetStatusCondition` | internal/controller/tlndb_controller.go:612-635 | overwriting in place or appending, the conditions become those of the pure function |
| `DeepCopy.ConditionWithBase` | internal/controller/tlndb_controller.go:612-621 | the base of the patch still shows the status before the change |
| `DeepCopy.PhaseWithBase` | internal/controller/tlndb_controller.go:601-606 | likewise for the phase |
| `DeepCopy.ConditionWithShallowBase` | internal/controller/tlndb_controller.go:612-621 | with a shallow base it would not, and the patch would be empty |

## Left out

- SHA-256 is an uninterpreted function; theorems that need it assume that the two texts at hand do not collide.
- Strings are sequences of Unicode scalar values rather than bytes; which characters above U+00FF `%q` prints as they are is left open.
- Ingress, NetworkPolicy, PodDisruptionBudget, HorizontalPodAutoscaler, ServiceMonitor, ServiceAccount and Role contents: opaque settings under their keys.
- Security contexts, affinity, tolerations, probe timings, resource quantities and claim contents: copied through, so each is one opaque string.
- The autoscaler writing StatefulSet replicas: not among the outside steps.
- API-server defaulting beyond the cluster address, node ports, garbage collection of owned objects, re-creation of a deleted instance under the same name.
- Stale informer caches and concurrent passes for one instance: reads are fresh and passes serial.
- Outside changes to children other than StatefulSet status and ConfigMaps; finalizers removed by others.
- Time: one counter serves as clock, resource version and address; the order of events is all that is used.
- The message of the ServiceMonitor condition after a failure is a constant instead of the error's text.
- Setting the controller reference cannot fail; events and logs are not recorded.
- `cmd/main.go`, `SetupWithManager`, `internal/resources/pvc.go`, CRDs, charts and manifests.
- The spec and metadata parts of the generated deep copies: the controller changes neither in place between taking a patch's base and sending the patch.
