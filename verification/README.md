# A verified model of the hypershift-deployment-controller

This project models the life of one `HypershiftDeployment` as the two reconcilers of the
hypershift-deployment-controller conduct it, and proves what they keep: no cloud resource is leaked, the
teardown happens in order and ends, a `ManifestWork` is only written behind the creation gate, payloads
are closed under their references, the etcd key is stable, and an import happens once.

Check everything with `dafny verify dfyconfig.toml`.

## How the model is built

**The lifecycle** (`Lifecycle.dfy`) is a labelled transition system. Its state is the stored deployment,
the ManifestWorks with what the agent applied and reported, the managed cluster, the objects on the
hosting cluster, and the AWS infrastructure and IAM, each absent, partial or complete. Five actors take
steps on it: the user, the managed-cluster import controller, the work agent, the main reconciler and the
auto-import reconciler. A step is one call that had an effect; every prefix of a run is a run, so a
reconcile may stop after any call. `Invariant.dfy` holds what every step keeps, `Guarantees.dfy` the
theorems about whole runs, `Teardown.dfy` the proof that every deletion ends, `EncryptionKey.dfy` the stability of
the etcd key over runs.

**The reconcilers** (`MainReconciler.dfy`, `MainCreation.dfy`, `MainTeardown.dfy`, `ImportReconciler.dfy`)
are methods in the shape of the source: an in-memory copy, early returns, ignored errors, calls in the
source's order. They act on a `Hub` (`Hub.dfy`) that records the run. Between any two calls the other
actors may take any number of steps, and every call may succeed, fail without effect, or take effect while
the caller sees an error. The methods keep `Hub.Valid`, which says that the recorded run is a legal run of
the lifecycle; so the theorems about runs hold of the code's structure, and the guards in `MainEnabled` and
`ImportEnabled` are proved of the reconcilers, not assumed. With `calm` (no interference, no failure)
their contracts also say exactly which calls a pass makes, or what it leaves behind; the termination proof
composes exactly these call lists. `Passes.dfy` says call by call, from the deployment, the work and the
managed cluster that a pass finds, exactly when the call is among them.

**The data transformations** the protocol carries are methods with loops over in-memory state, each proved
against a specification about which the properties are then proved: `Payload.dfy` (the workload of a
ManifestWork; `PayloadContents.dfy` says manifest by manifest what it holds), `StatusFeedback.dfy` and `Conditions.dfy` (status), `Scaffold.dfy` (specs and node pools),
`RoleMigration.dfy`, `ClusterMeta.dfy` (labels and annotations of the managed cluster),
`OwnerAnnotation.dfy`, and `MergePatch.dfy` (merge patches, section 2 of RFC 7396). They work on the class
`Api.Deployment`, the in-memory deployment with the fields they update; the lifecycle's `Hyd` is the stored
object with the fields the protocol depends on.

## Assumptions

- A pass of the main reconciler that writes its whole copy back (a pass over a live deployment, or one that
  still migrates deprecated roles) does not interleave with a pass of the auto-import reconciler or with an
  edit of the user. A merge patch replaces the finalizer list wholesale;
  `MergePatch.StalePatchDropsFinalizer` and `MergePatch.LateWriteSurvivesIff` show exactly what is lost
  otherwise. Any other passes, and all of a teardown, may interleave freely.
- The user may delete the deployment or the managed cluster at any time, and may edit the hosted cluster spec
  and the node pools between such passes, but does not change issuer URL or role ARNs, does not bring back
  the deprecated role list, and does not edit the create-managed-cluster annotation.
- Override, infra-id, region, `configure`, hosting namespace and the kind of cluster reference stay fixed
  during a run. The user submits no preset finalizers and no preset status.
- Nobody else edits ManifestWorks. The API server refuses new finalizers on an object that is being deleted.
  Reads are current.
- `configure` comes with a platform; in the runs it is AWS, and the creator returns at least one zone.
- The agent reports `Available` only for a generation it has applied. The termination theorem also asks
  that it reports only success, and that each actor gets an undisturbed pass in every round.
- An undisturbed (`calm`) pass includes that every read succeeds, the provider secret among them: with
  `configure`, a deletion without a readable provider secret never gets to its teardown.
- I/O, clocks, random suffixes, UUIDs and generated keys are parameters or arbitrary choices.

## Where code and documentation differ

- `README.md:79` of the repository says that `HostedCluster.Platform.aws` is overwritten as a whole. The
  code keeps region, tags and roles that the user set (`Scaffold.UserSettingsSurvive`), and appends one more
  copy of the owned tag on every call (`Scaffold.RepeatedScaffoldAddsOneTagPerCall`).
- The copy of a config map drops its data (`pkg/controllers/configuration.go:77-93`), so the payload
  theorems speak of config maps by namespace and name.
- Azure credentials that do not parse end the loader without an error and without the pull secret
  (`pkg/controllers/manifestwork.go:477-481`); `Payload.PullSecretIsDroppedIff` says exactly when.
- Deletion does not stop an import: a pass that found no managed cluster still creates it after the
  deployment is deleted, and if the deployment had no finalizer the cluster stays behind
  (`Guarantees.ClusterCanOutliveDeployment`). `Guarantees.ClusterAppearsIffImportIsOpen` is the exact rule.
- On Azure a failed destroy does not stop the removal of the finalizer; `AzureTeardown` states exactly when
  resources are leaked.

## Model

| member | source | states |
|---|---|---|
| `Guarantees.NoCloudLeak` | pkg/controllers/hypershiftdeployment_controller.go:143-177 | after any run, unless the override is ORPHAN, cloud resources (even partial ones) exist only while the deployment exists with its destroy finalizer and only under its recorded infra id; until deletion starts this holds for every override |
| `Guarantees.FinalizerDropsLast` | pkg/controllers/hypershiftdeployment_controller.go:404-428 | the step that drops the destroy finalizer happens only when no work is left, no cloud resource is left under any id (unless ORPHAN), and an imported managed cluster is gone, or is deleting with its manifestwork finalizer removed |
| `Guarantees.CleanExit` | pkg/controllers/hypershiftdeployment_controller.go:374-429 | a deployment that is gone left exactly what its override says, in the cloud and on the hosting cluster (see `WhatIsLeftBehind`); a managed cluster marked with the finalizer is gone, or is deleting with its manifestwork finalizer removed, and no managed cluster appears any more unless an import pass is in flight |
| `Guarantees.WhatIsLeftBehind` | pkg/controllers/manifestwork.go:116-132 | once the deployment is gone, ORPHAN has left every object of the work, DELETE-HOSTING-NAMESPACE none, and by default the hosting namespace stays and nothing else |
| `Guarantees.UnmarkedMeansDown` | pkg/controllers/autoimport/autoimport_controller.go:326-349 | in every reachable state in which an imported deployment lacks the managed-cluster finalizer, the managed cluster is gone, or is deleting and its manifestwork finalizer is removed |
| `Guarantees.InfraOnlyNeverDeploys` | pkg/controllers/hypershiftdeployment_controller.go:180-185 | under INFRA-ONLY no work is ever stored and nothing reaches the hosting cluster |
| `Guarantees.OrphanKeepsCloud` | pkg/controllers/hypershiftdeployment_controller.go:404-411 | under ORPHAN no run of a deletion changes any cloud resource |
| `Guarantees.WorkDeletionIsOrderly` | pkg/controllers/manifestwork.go:407-434 | a work is being deleted only if an imported managed cluster is gone, or is deleting without its manifestwork finalizer, and, unless ORPHAN, the agent has applied the work with a delete option: Foreground under DELETE-HOSTING-NAMESPACE, otherwise orphaning just the hosting namespace |
| `Guarantees.SettledStays` | pkg/controllers/hypershiftdeployment_controller.go:159-161 | once deletion has settled no step revives the deployment, and a deployment that is gone stays gone |
| `Guarantees.TeardownStepsInOrder` | pkg/controllers/hypershiftdeployment_controller.go:386-418 | in a settled teardown a step touches infrastructure only without works and IAM only without infrastructure, and nothing comes back |
| `Guarantees.NothingComesBack` | pkg/controllers/hypershiftdeployment_controller.go:386-428 | over any run from a settled teardown no work, infrastructure or IAM comes back |
| `Guarantees.GoneIsQuiet` | pkg/controllers/hypershiftdeployment_controller.go:90-93 | once the deployment is gone no step changes works, cloud or hosted objects |
| `Guarantees.OrphanUntilDeletion` | pkg/controllers/manifestwork.go:97-102 | until deletion starts, every stored work, and every spec the agent applied, orphans its objects |
| `Guarantees.OneBumpAfterDeletion` | pkg/controllers/manifestwork.go:408-418 | over any run of a settled teardown a work's payload does not change and its generation rises at most once, and only while the delete option was still to be patched |
| `Guarantees.LateWriteOnlyFromRunningPass` | pkg/controllers/hypershiftdeployment_controller.go:158-206 | the limit of that promise: while a deployment is deleting, a payload can still change to another if and only if a pass that read it alive is in flight and the payload passes that pass's guard |
| `Guarantees.CreationGate` | pkg/controllers/hypershiftdeployment_controller.go:163-206 | with configure, and for users who leave issuer and roles alone, a work exists only on complete infrastructure and IAM, and both the stored spec and the hosted cluster inside the work carry that IAM run's issuer URL and seven role ARNs |
| `Guarantees.StoredPayloadsAreWellFormed` | pkg/controllers/manifestwork.go:347-377 | after any run every stored payload is well formed in the hosting namespace: it has every secret and config map that its hosted cluster and its node pools name, field by field |
| `Guarantees.BoundRun` | pkg/controllers/manifestwork.go:66-79 | once an infra id is recorded, every later call that names an id names that one |
| `Guarantees.OneIdPerRun` | pkg/controllers/hypershiftdeployment_controller.go:138-156 | all cloud and work calls of a run use one infra id, whatever random ids failed first writes discarded; a user's id is used as given |
| `Guarantees.NamelessAfterGone` | pkg/controllers/hypershiftdeployment_controller.go:90-93 | after the deployment is gone no call names an infra id |
| `Guarantees.FinalizerImpliesId` | pkg/controllers/hypershiftdeployment_controller.go:143-156 | the destroy finalizer is never there without a recorded infra id |
| `Guarantees.DetachedStaysDetached` | pkg/controllers/autoimport/autoimport_controller.go:92-129 | once import is over (the annotation says false or deletion has started, and no pass that saw otherwise can still create), a managed cluster that is gone never comes back |
| `Guarantees.ClusterAppearsIffImportIsOpen` | pkg/controllers/autoimport/autoimport_controller.go:92-129 | in every reachable state without a managed cluster, some continuation of the run brings one up if and only if import is not over; deletion alone does not end a pass in flight |
| `Guarantees.ClusterCanOutliveDeployment` | pkg/controllers/autoimport/autoimport_controller.go:207-218 | the concrete run from any fresh deployment in which the cluster is created after the deployment was deleted, and stays |
| `Invariant.StepKeepsInv` | pkg/controllers/hypershiftdeployment_controller.go:81-208 | every step of every actor keeps the invariant |
| `Invariant.RunsKeepInv` | pkg/controllers/hypershiftdeployment_controller.go:81-208 | the invariant holds in every state a run reaches |
| `Invariant.ControllerKeepsInv` | pkg/controllers/autoimport/autoimport_controller.go:326-349 | the import controller's steps on the managed cluster keep it, so the finalizer is never given up too early |
| `Invariant.GateWritesKeepInv` | pkg/controllers/aws_infra.go:49-141 | writes of the two gate conditions keep the gate honest |
| `Invariant.SpecWritesKeepInv` | pkg/controllers/aws_infra.go:72-128 | the patches with the scaffolded spec and with the IAM output keep the gate honest |
| `Invariant.MigrationKeepsInv` | pkg/controllers/hypershiftdeployment_controller.go:95-99 | the role migration keeps the invariant: it happens before anything is built |
| `Invariant.CloudCallsKeepInv` | pkg/controllers/aws_infra.go:53-99 | cloud creates and destroys, partial effects included, keep the invariant |
| `Invariant.DeployKeepsInv` | pkg/controllers/manifestwork.go:366-377 | creating or updating the work keeps the invariant |
| `Invariant.WorkTeardownKeepsInv` | pkg/controllers/manifestwork.go:408-434 | patching the delete option and deleting the work keep the invariant |
| `Invariant.ReleaseKeepsInv` | pkg/controllers/hypershiftdeployment_controller.go:420-428 | removing the destroy finalizer keeps the invariant |
| `Invariant.ImportReleaseKeepsInv` | pkg/controllers/autoimport/autoimport_controller.go:315-324 | removing the managed-cluster finalizer keeps the invariant, and with it `Guarantees.UnmarkedMeansDown` |
| `Lifecycle.PrefixesAreRuns` | pkg/controllers/hypershiftdeployment_controller.go:81-208 | a pass may stop after any call: prefixes of runs are runs |
| `Teardown.NothingRaises` | pkg/controllers/hypershiftdeployment_controller.go:374-429 | no run of healthy steps of any actors raises any part of the measure once deletion has settled |
| `Teardown.MainPass` | pkg/controllers/hypershiftdeployment_controller.go:374-429 | the calls of an undisturbed main pass are legal; if only the destroy finalizer is left, the pass ends the deployment or advances the work |
| `Teardown.ImportPass` | pkg/controllers/autoimport/autoimport_controller.go:326-359 | the calls of an undisturbed import pass are legal, detach a live managed cluster, and give up the finalizer once the cluster is down |
| `Teardown.TurnLowers` | pkg/controllers/hypershiftdeployment_controller.go:374-429 | while the deployment exists there is one actor whose undisturbed pass lowers the measure |
| `Teardown.TurnComes` | pkg/controllers/hypershiftdeployment_controller.go:374-429 | in any sequence of undisturbed passes and other healthy steps, the measure has fallen once that actor had its pass |
| `Teardown.TeardownEnds` | pkg/controllers/hypershiftdeployment_controller.go:374-429 | if every actor gets one undisturbed pass per round, in any order and with any healthy steps around, the deployment is gone after as many rounds as the measure says |
| `Teardown.ReachableTeardownEnds` | pkg/controllers/hypershiftdeployment_controller.go:374-429 | from any reachable deleting state with no pass in flight 14 such rounds are enough |
| `Teardown.QuietRoundsPlay` | pkg/controllers/autoimport/autoimport_controller.go:326-359 | such rounds are always possible, so no two actors wait for each other |
| `HubModel.Hub.InterfereWithMain` | pkg/controllers/hypershiftdeployment_controller.go:81-208 | whatever others do between two calls of a main pass, they do only what the pass relies on |
| `HubModel.Hub.InterfereWithImport` | pkg/controllers/autoimport/autoimport_controller.go:77-130 | likewise for an import pass |
| `HubModel.OthersKeepMainRely` | pkg/controllers/hypershiftdeployment_controller.go:374-429 | each step of another actor respects what a main pass relies on: finalizers, id, gates, works and their specs |
| `HubModel.OthersKeepImportRely` | pkg/controllers/autoimport/autoimport_controller.go:326-359 | each step of another actor respects what an import pass relies on |
| `MainReconciler.Reconcile` | pkg/controllers/hypershiftdeployment_controller.go:81-208 | on AWS, or without configure: under any interference and failures the pass takes only legal steps; undisturbed it makes exactly the calls of a teardown or of a creation, in order, and a creation leaves exactly the spec that migration, scaffolding, IAM output and defaults give, the open gates, and the payload assembled from that spec |
| `MainReconciler.RunPass` | pkg/controllers/hypershiftdeployment_controller.go:81-208 | the same for one pass, from the moment the deployment was read |
| `MainReconciler.Reconciler.MigrateDeprecatedRoles` | pkg/controllers/hypershiftdeployment_controller.go:95-99 | goes on only with roles migrated in the stored object; the wholesale patch amounts to just that migration |
| `MainReconciler.Reconciler.GetProviderSecret` | pkg/controllers/hypershiftdeployment_controller.go:102-136 | the secret is read to configure a platform and for a cluster on Azure; a missing secret or a failed status write ends the pass, otherwise the copy is as fresh as the response |
| `MainReconciler.Reconciler.PersistInfraId` | pkg/controllers/hypershiftdeployment_controller.go:138-156 | the pass goes on only with id and finalizer stored in one patch; a deleting deployment never gets the finalizer |
| `MainReconciler.Reconciler.Prepare` | pkg/controllers/hypershiftdeployment_controller.go:95-156 | undisturbed, a live deployment always gets past this part with migrated roles and the same gates; a deleting one only if it holds the finalizer |
| `MainReconciler.Reconciler.TearDown` | pkg/controllers/hypershiftdeployment_controller.go:158-161 | a copy that says deleting leads to the teardown, also when the pass began on a live deployment |
| `MainReconciler.Reconciler.Deploy` | pkg/controllers/hypershiftdeployment_controller.go:163-206 | on AWS or without configure, the work is written only behind the gate; undisturbed the pass makes exactly the calls of build, defaults and work, and leaves the computed spec and the assembled payload |
| `MainTeardown.Destroyer.DestroyHypershift` | pkg/controllers/hypershiftdeployment_controller.go:374-429 | on AWS or without configure: waits for the managed cluster, then the work, then the cloud, then drops the finalizer; undisturbed it makes exactly these calls |
| `MainTeardown.Destroyer.DeleteWorkWaitCleanUp` | pkg/controllers/manifestwork.go:392-441 | reports Gone only if no work is left; deletes only after the handshake |
| `MainTeardown.Destroyer.AwaitOption` | pkg/controllers/manifestwork.go:407-428 | ready, unless ORPHAN, only if the stored option is the one this override calls for, case by case, and the agent has applied the work as it is and reports it available |
| `MainTeardown.Destroyer.DestroyAwsInfrastructure` | pkg/controllers/aws_infra.go:147-193 | no requeue only if infrastructure and IAM are both gone |
| `MainTeardown.Destroyer.RemoveFinalizer` | pkg/controllers/hypershiftdeployment_controller.go:420-428 | the update is refused if the copy is stale, and otherwise drops just the destroy finalizer |
| `MainCreation.Creator.CreateAwsInfra` | pkg/controllers/aws_infra.go:37-145 | goes on with an open IAM gate only if the copy mirrors the stored spec; undisturbed it makes exactly its eight calls (none if both gates are open), opens both gates, and leaves exactly the scaffolded spec and node pools with the IAM run's output; it stops where scaffolding indexes a zone that does not exist |
| `MainCreation.Creator.BuildInfra` | pkg/controllers/aws_infra.go:53-91 | goes on only with complete infrastructure, the scaffolded spec and node pools stored, and the infrastructure gate open, in that order |
| `MainCreation.Creator.BuildIam` | pkg/controllers/aws_infra.go:93-141 | some failures go on without a requeue, but never with the IAM gate open |
| `MainCreation.Creator.PatchScaffold` | pkg/controllers/hypershiftdeployment_controller.go:354-372 | the patch stores the copy's cluster spec and node pools, and only these change |
| `MainCreation.Creator.SetDefaultValues` | pkg/controllers/hypershiftdeployment_controller.go:243-270 | fills cluster id and catalog placement where they are missing and keeps the gate and the works as they are |
| `MainCreation.CompletedKeepsSettings` | pkg/controllers/hypershiftdeployment_controller.go:243-270 | cluster id and catalog placement of the user's are kept, the defaults fill them otherwise, and nothing else changes |
| `MainCreation.Creator.DeployWork` | pkg/controllers/hypershiftdeployment_controller.go:187-206 | undisturbed it leaves the completed spec and, in the work, what the loaders assemble from it |
| `MainCreation.Creator.CreateOrUpdateWork` | pkg/controllers/manifestwork.go:275-390 | under any interference and failures the stored payload undergoes one round: it stays, or becomes what the loaders assemble from what the pass could read of it; undisturbed, with matching pools, it becomes that, and the calls are exactly those listed |
| `MainCreation.Creator.AssembledMayBeWritten` | pkg/controllers/manifestwork.go:347-377 | what the loaders assemble behind the gate satisfies the guard of the write |
| `ImportReconciler.Reconcile` | pkg/controllers/autoimport/autoimport_controller.go:77-130 | under any interference and failures the pass takes only legal steps; undisturbed it makes exactly the calls of an import or a detach |
| `ImportReconciler.Importer.EnsureManagedCluster` | pkg/controllers/autoimport/autoimport_controller.go:184-233 | creates a managed cluster exactly if there is none |
| `ImportReconciler.Importer.SetFinalizer` | pkg/controllers/autoimport/autoimport_controller.go:308-313 | the wholesale patch amounts to adding one finalizer; a deleting deployment refuses it |
| `ImportReconciler.Importer.RemoveFinalizer` | pkg/controllers/autoimport/autoimport_controller.go:315-324 | the wholesale patch amounts to removing one finalizer, with the managed cluster down |
| `ImportReconciler.Importer.EnsureAnnotationFalse` | pkg/controllers/autoimport/autoimport_controller.go:294-306 | writes the annotation unless it is already exactly false |
| `ImportReconciler.Importer.DeleteManagedCluster` | pkg/controllers/autoimport/autoimport_controller.go:326-359 | undisturbed: detaches a live cluster, makes no call while a deleting cluster has its manifestwork finalizer, and then gives up the deployment's finalizer |
| `Passes.CreatesClusterIff` | pkg/controllers/autoimport/autoimport_controller.go:92-118 | an undisturbed import pass creates the managed cluster if and only if the deployment is live, its annotation is not "false" in any case, and there is no cluster; that is its first call |
| `Passes.MarksIff` | pkg/controllers/autoimport/autoimport_controller.go:308-313 | it adds the finalizer if and only if such a deployment lacks it |
| `Passes.SilencesIff` | pkg/controllers/autoimport/autoimport_controller.go:119-129 | it silences the annotation if and only if the finalizer is there and the cluster has joined or the kubeconfig exists |
| `Passes.DetachesIff` | pkg/controllers/autoimport/autoimport_controller.go:349-359 | it detaches if and only if the deployment is deleting and the cluster is live |
| `Passes.UnmarksIff` | pkg/controllers/autoimport/autoimport_controller.go:326-349 | it removes the finalizer if and only if the deployment is deleting and has it, and the cluster is gone, or is deleting without its manifestwork finalizer |
| `Passes.MigratesIff` | pkg/controllers/hypershiftdeployment_controller.go:95-99 | an undisturbed main pass migrates roles, before anything else, if and only if the AWS spec has the deprecated list |
| `Passes.LooksAtSecretIff` | pkg/controllers/hypershiftdeployment_controller.go:102-136 | it looks at the provider secret if and only if the platform is configured or the cluster is on Azure |
| `Passes.PersistsIff` | pkg/controllers/hypershiftdeployment_controller.go:138-156 | over a live deployment it stores an id if and only if the finalizer is missing: the user's id, or the name with the random suffix |
| `Passes.BuildsIff` | pkg/controllers/aws_infra.go:37-145 | it creates infrastructure, and with enough zones IAM, and opens each gate, if and only if the platform is configured, the region is set and a gate is shut; under the deployment's id and with the IAM run's output |
| `Passes.WritesWorkOnlyBehindGate` | pkg/controllers/hypershiftdeployment_controller.go:163-206 | it writes a work only if the override is not INFRA-ONLY and the gate opens, under the deployment's id, and creates it only if there is none |
| `Passes.RecordsIff` | pkg/controllers/aws_infra.go:72-128 | the two patches of the build store the scaffolded spec with the zoned pools, and the IAM run's output, if and only if the pass builds with enough zones |
| `Passes.SpecAtGateIs` | pkg/controllers/aws_infra.go:72-128 | the spec at the gate: scaffolded, with the IAM run's issuer and roles and the zoned pools, if the pass built, and otherwise as it was |
| `Passes.PassStoresDefaultsIff` | pkg/controllers/hypershiftdeployment_controller.go:243-270 | cluster id and catalog placement are stored if and only if the cluster at the gate lacks one of them, and the user's values are stored as they are |
| `Passes.PassWritesIff` | pkg/controllers/manifestwork.go:275-390 | with the gate open a payload is written if and only if there is a cluster to deploy, its own pools match it, and the payload is what the loaders assemble from the completed spec and the payload stored under the id |
| `Passes.PatchesOptionIff` | pkg/controllers/manifestwork.go:407-418 | over a deleting deployment the delete option is patched if and only if the teardown has begun, the override is neither INFRA-ONLY nor ORPHAN, and the option of the live work is not the one called for |
| `Passes.PatchStoresTheOption` | pkg/controllers/manifestwork.go:116-132 | the patch stores the option this override calls for, case by case |
| `Passes.DeletesWorkIff` | pkg/controllers/manifestwork.go:407-434 | the work is deleted if and only if the teardown has begun, the work is live, and, unless ORPHAN, its option is the one called for and it is reported available at its own generation |
| `Passes.DestroysInfraIff` | pkg/controllers/aws_infra.go:147-193 | infrastructure is destroyed if and only if no work is left to wait for, the platform is configured and the override is not ORPHAN |
| `Passes.DestroysIamIff` | pkg/controllers/aws_infra.go:147-193 | likewise IAM |
| `Passes.ReleasesIff` | pkg/controllers/hypershiftdeployment_controller.go:374-428 | the destroy finalizer is removed if and only if the teardown has begun and no work is left to wait for |
| `Passes.DestroyPassOnlyDestroys` | pkg/controllers/hypershiftdeployment_controller.go:158-161 | a pass over a deleting deployment stores no id, builds nothing, opens no gate and writes no payload |
| `MergePatch.RoundTrip` | pkg/controllers/hypershiftdeployment_controller.go:354-372 | the merge patch from one document to another turns the first into exactly the second, if the second has no null members |
| `MergePatch.PatchedAt` | pkg/controllers/hypershiftdeployment_controller.go:354-372 | for a patch from one document to a second applied to a third, what ends up under each key |
| `MergePatch.PatchStoresTheCopy` | pkg/controllers/hypershiftdeployment_controller.go:354-372 | wherever the stored object still says what was read before the patch, it says afterwards what the caller's copy says, whatever that was |
| `MergePatch.LateWriteSurvivesIff` | pkg/controllers/hypershiftdeployment_controller.go:354-372 | a value that others write after that read survives the patch if and only if the copy agreed with the read under its key |
| `MergePatch.ListsAreReplaced` | pkg/controllers/autoimport/autoimport_controller.go:308-313 | a list the caller changed replaces the stored list wholesale; one it did not change stays |
| `MergePatch.StalePatchDropsFinalizer` | pkg/controllers/autoimport/autoimport_controller.go:308-313 | a finalizer stored since the read survives the patch if and only if it was read or is being added |
| `Payload.Builder.Assemble` | pkg/controllers/manifestwork.go:347-364 | the loaders succeed exactly on the inputs `Assembles` describes, and then leave `Assembled` |
| `Payload.Builder.EnsureConfiguration` | pkg/controllers/configuration.go:106-265 | appends one object per resolved reference and fails exactly if some reference stays unresolved; `PayloadContents` says which object that is |
| `Payload.Builder.AppendReferenceSecrets` | pkg/controllers/manifestwork.go:443-518 | pull, cloud and SSH secrets by source and order, with the SSH name written into the hosted cluster |
| `Payload.Builder.AppendNodePools` | pkg/controllers/manifestwork.go:551-597 | one manifest per referenced or own node pool, in order; fails exactly if a reference cannot be read |
| `Payload.Builder.AppendHostedCluster` | pkg/controllers/manifestwork.go:520-532 | one hosted cluster, own or referenced |
| `Payload.Builder.CollectSecretRefs` | pkg/controllers/configuration.go:136-208 | the references gathered are those of the hosted cluster, in order, with only the active key generable |
| `Payload.Builder.CollectConfigMapRefs` | pkg/controllers/configuration.go:146-215 | config map references of the cluster, its trust bundle and every pool |
| `Payload.SecretRefsIff` | pkg/controllers/configuration.go:136-208 | a reference is gathered if and only if the hosted cluster names it in one of these fields, and it is generable if and only if it is the AESCBC active key |
| `Payload.ConfigMapRefsIff` | pkg/controllers/configuration.go:146-215 | a config map is gathered if and only if the cluster's configuration, its trust bundle or some pool names it |
| `PayloadContents.AssemblesIff` | pkg/controllers/manifestwork.go:347-364 | exactly when the loaders succeed on a cluster and pools that can be read: pull secret and SSH key to copy are there, each secret named is the user's, or stored, or with configure the active key alone, and each config map named is there |
| `PayloadContents.AssemblesNeedsReferences` | pkg/controllers/manifestwork.go:520-597 | a cluster or pool reference that cannot be read makes them fail |
| `PayloadContents.HeadSpelledOut` | pkg/controllers/manifestwork.go:534-597 | a payload starts with the namespace, the chosen cluster under the deployment's name (its SSH key name filled in when the provider supplies the key), and the chosen pools in order |
| `PayloadContents.ReferenceSecretsIff` | pkg/controllers/manifestwork.go:443-518 | exactly the secrets that go with the cluster, with their data: the provider's or the copied pull secret, the three AWS ARNs each under its own name or the Azure credentials, and the copied or the provider's SSH key |
| `PayloadContents.ReferenceSecretsLieBetween` | pkg/controllers/manifestwork.go:443-518 | they follow the pools, and what ensureConfiguration appends follows them |
| `PayloadContents.TailHolds` | pkg/controllers/configuration.go:217-264 | behind them lie only secrets the cluster names, and exactly the config maps that cluster and pools name |
| `PayloadContents.UsersSecretWins` | pkg/controllers/configuration.go:217-223 | the user's secret is what is written under its name there, whatever the work holds, and nothing else is |
| `PayloadContents.StoredSecretIsKept` | pkg/controllers/configuration.go:225-230 | without one it is the first stored secret of that name |
| `PayloadContents.SecretIsGenerated` | pkg/controllers/configuration.go:230-249 | without either it is the generated one, and that only with configure and for a name that is the active key and nothing else |
| `PayloadContents.RoundStoresIff` | pkg/controllers/manifestwork.go:341-390 | a reconcile replaces the stored payload if and only if the loaders succeed on what it read and the write gets through |
| `PayloadContents.RoundWritesSecret` | pkg/controllers/configuration.go:217-249 | so the stored payload holds the user's secret, else the one the reconcile read, else the generated active key |
| `PayloadContents.WellFormedIff` | pkg/controllers/configuration.go:106-265 | well-formedness field by field: a secret for each name in the cluster's references and a config map for each name in the cluster's or a pool's |
| `Payload.GetManifestPayloadSecretByName` | pkg/controllers/manifestwork.go:796-818 | finds the first secret of a name, or nothing |
| `Payload.AssembledIsWellFormed` | pkg/controllers/manifestwork.go:347-377 | a payload that is written holds one namespace, one hosted cluster and the chosen pools, lies in the hosting namespace, and contains every secret and config map gathered from its manifests, and, unless the cluster is on Azure, the pull secret and SSH key it names |
| `Payload.NamedSecretsArePresent` | pkg/controllers/manifestwork.go:443-518 | unless Azure credentials do not parse, the payload has the pull secret, the SSH key and the Azure credentials its hosted cluster names |
| `Payload.PullSecretIsDroppedIff` | pkg/controllers/manifestwork.go:477-481 | the pull secret is missing from a payload that is written if and only if Azure credentials do not parse and no other reference goes by its name |
| `Payload.StoredPayloadIsAlwaysWellFormed` | pkg/controllers/manifestwork.go:341-377 | this holds after any number of reconciles, whichever reads, loaders or writes failed in them |
| `Payload.HeadReadsBack` | pkg/controllers/manifestwork.go:820-854 | reading cluster and pools back from the payload finds what the loaders put there |
| `Payload.WrittenKey` | pkg/controllers/configuration.go:217-249 | the secret written under the active key's name is the user's, else the stored one, else the generated one |
| `Payload.EncryptionKeyIsStable` | pkg/controllers/configuration.go:217-249 | once stored, a generated key reappears unchanged after every later reconcile that can read the work, while the user supplies none of that name |
| `EncryptionKey.KeyIsStableInRuns` | pkg/controllers/manifestwork.go:341-377 | over every run in which each update of the work is such a round, whatever else happens, the stored key stays as it is |
| `Payload.KeySurvivesIffWorkWasRead` | pkg/controllers/manifestwork.go:341-345 | a reconcile that writes keeps the key if and only if it could read the stored work (or generates the same key again) |
| `StatusFeedback.GetStatusFeedbackAsCondition` | pkg/controllers/manifestwork.go:728-783 | for any feedback, a condition comes out if and only if it is what a hosted cluster that was asked about reports with its last values, or sums up the node pools: provisioned if some report and all are ready, else what the last failing one reports |
| `StatusFeedback.FeedbackToCondition` | pkg/controllers/manifestwork.go:672-708 | the last value of each name counts; a condition without reason or status is dropped |
| `StatusFeedback.MergePoolCondition` | pkg/controllers/manifestwork.go:745-759 | the running condition is the first pool until one fails and then the last failing one |
| `StatusFeedback.SummarizePools` | pkg/controllers/manifestwork.go:773-781 | what is carried at the end becomes the declarative summary |
| `StatusFeedback.SummaryTruthIgnoresOrder` | pkg/controllers/manifestwork.go:728-783 | whether a summary of pool conditions says all provisioned does not depend on their order |
| `StatusFeedback.FeedbackOrderIsIrrelevant` | pkg/controllers/manifestwork.go:728-783 | nor does it depend on the order of the feedback entries of the work |
| `StatusFeedback.SummaryTrueIffAllTrue` | pkg/controllers/manifestwork.go:745-781 | the summary is True if and only if there are pools and all of them are, and absent if and only if there are none |
| `StatusFeedback.SummaryReachesDeployment` | pkg/controllers/manifestwork.go:142-163 | after the sync the deployment's node-pool condition is the summary, whatever stood there |
| `StatusFeedback.ManifestWorkIds` | pkg/controllers/manifestwork.go:599-668 | asks about exactly the deployment's hosted cluster and its own node pools, in the hosting namespace |
| `StatusFeedback.SyncManifestworkStatus` | pkg/controllers/manifestwork.go:142-163 | after the sync each hosted-cluster condition is the last report of its type, the node-pool condition sums up the pools, every other type is the last of the work's own, all stamped with the generation, and a type nobody mentions is as before |
| `Conditions.SetStatusCondition` | pkg/controllers/hypershiftdeployment_controller.go:291-304 | replaces the condition of its type in place or appends it, stamped with the generation; a lookup then finds it, and every other type as before |
| `Conditions.UpdateStatusConditionsOnChange` | pkg/controllers/hypershiftdeployment_controller.go:311-352 | afterwards the type has the wanted status, reason and message, and, unless mirrored from a work, the generation; the API server is not called if and only if that was so before; no other type changes |
| `Conditions.SyncWorkStatus` | pkg/controllers/manifestwork.go:142-163 | copies work conditions and feedback one by one |
| `Conditions.LookupAfterUpsert` | pkg/controllers/hypershiftdeployment_controller.go:291-304 | an update changes its own type and no other |
| `Conditions.RepeatedUpdateIsSilent` | pkg/controllers/hypershiftdeployment_controller.go:321-340 | an identical update right after writes nothing |
| `Conditions.LastIncomingWins` | pkg/controllers/manifestwork.go:142-163 | after a sync each type is the last incoming condition of that type, and types that did not come in keep theirs |
| `Conditions.ReachableListsAreUnique` | pkg/controllers/hypershiftdeployment_controller.go:291-352 | every list built by any number of writes has one condition per type |
| `Scaffold.ScaffoldHostedClusterSpec` | pkg/controllers/default_resources.go:210-282 | fills exactly the unset defaults |
| `Scaffold.ScaffoldAWSHostedClusterSpec` | pkg/controllers/default_resources.go:169-202 | defaults first, then the fields taken from the infrastructure |
| `Scaffold.RepeatedScaffoldAddsOneTagPerCall` | pkg/controllers/default_resources.go:169-202 | any number of repeated calls changes nothing but one more copy of the owned tag per call |
| `Scaffold.UserSettingsSurvive` | pkg/controllers/default_resources.go:169-282 | tags and every set optional field of the user that the model keeps survive |
| `Scaffold.FromInfrastructure` | pkg/controllers/default_resources.go:169-202 | which output of the infrastructure creator goes into which field, with the owned tag behind the user's |
| `Scaffold.UnsetFieldsFilled` | pkg/controllers/default_resources.go:210-282 | what each unset field of a user's spec becomes |
| `Scaffold.FreshSpecFilled` | pkg/controllers/default_resources.go:213-247 | what the fields become without a spec of the user's |
| `Scaffold.ScaffoldNodePoolSpec` | pkg/controllers/default_resources.go:347-379 | if the user gave no pools, one per zone, or a single one without an AWS output; every pool names its cluster |
| `Scaffold.ScaffoldAWSNodePoolSpec` | pkg/controllers/default_resources.go:319-345 | no zone index is out of range if and only if each pool without a subnet sits below the zone count; then every unset field is filled |
| `Scaffold.OnePoolPerZone` | pkg/controllers/default_resources.go:347-372 | without user pools, there is one pool per zone and pool i lies in zone i's subnet; zones with distinct names give pools with distinct names |
| `Scaffold.IndexSafeIff` | pkg/controllers/default_resources.go:319-345 | the scaffolding goes through if and only if each of the user's pools without a subnet sits below the zone count |
| `Scaffold.PoolFieldsFilled` | pkg/controllers/default_resources.go:319-345 | what each unset field of a user's pool becomes, and from which zone |
| `Scaffold.MadeUpPools` | pkg/controllers/default_resources.go:347-412 | the pools made up from the zones, field by field |
| `Scaffold.MadeUpPoolWithoutOutput` | pkg/controllers/default_resources.go:347-412 | the single pool made up without an AWS output |
| `Scaffold.UserPoolFieldsSurvive` | pkg/controllers/default_resources.go:319-345 | fields set on a user's pool are kept |
| `Scaffold.SecondCallChangesNothing` | pkg/controllers/default_resources.go:319-379 | a second call with the same output changes no pool |
| `Scaffold.ValidateNodePools` | pkg/controllers/manifestwork.go:319-325 | accepts exactly the pools that have the cluster's platform and its name |
| `Scaffold.ScaffoldForAws` | pkg/controllers/aws_infra.go:74-76 | cluster and pool scaffolding together always pass that check |
| `RoleMigration.MigrateAWSRoles` | pkg/controllers/hypershiftdeployment_controller.go:210-241 | moves the deprecated list into the four references, leaves it nil, and so has nothing to do a second time |
| `RoleMigration.LastRoleWins` | pkg/controllers/hypershiftdeployment_controller.go:216-233 | a reference becomes the ARN of the last role of its namespace |
| `RoleMigration.UnmatchedReferenceStays` | pkg/controllers/hypershiftdeployment_controller.go:216-233 | a reference without a role of its namespace stays as it was |
| `RoleMigration.MigrationComposes` | pkg/controllers/hypershiftdeployment_controller.go:210-241 | migrating a list in two parts is migrating it at once |
| `RoleMigration.MigrationFillsReferences` | pkg/controllers/hypershiftdeployment_controller.go:210-241 | which namespace's last role goes to which of the four references; nothing else in the spec changes but the list, which goes |
| `ClusterMeta.ManagedClusterMeta.EnsureObjectMeta` | pkg/controllers/autoimport/autoimport_controller.go:237-276 | labels and annotations are filled from the defaults, and a change is reported exactly if some default was missing |
| `ClusterMeta.FillIn` | pkg/controllers/autoimport/autoimport_controller.go:249-253 | the result does not depend on the order of the Go map |
| `ClusterMeta.NeverOverwrites` | pkg/controllers/autoimport/autoimport_controller.go:278-292 | a non-empty value is never overwritten and no other key is touched |
| `ClusterMeta.FillingIsIdempotent` | pkg/controllers/autoimport/autoimport_controller.go:237-276 | filling twice is filling once |
| `ClusterMeta.ReportIsExactUnlessEmpty` | pkg/controllers/autoimport/autoimport_controller.go:249-275 | for any defaults, the exact condition under which the report says whether the map changed: it fails only for defaults that are themselves empty |
| `ClusterMeta.SecondReport` | pkg/controllers/autoimport/autoimport_controller.go:226-231 | a second pass reports a change if and only if an empty default meets a missing value |
| `ClusterMeta.ReportIsExact` | pkg/controllers/autoimport/autoimport_controller.go:202-231 | with the cluster set and hosting cluster that ensureManagedCluster works out, a change is reported if and only if labels or annotations change, and a second pass reports none |
| `ClusterMeta.NewLabels` | pkg/controllers/autoimport/autoimport_controller.go:237-253 | the labels of a new managed cluster; the cluster set is the requested one, else the hosting cluster's, else "default" |
| `ClusterMeta.NewAnnotations` | pkg/controllers/autoimport/autoimport_controller.go:255-276 | its annotations; the one that names the deployment leads back to it, unless namespace or name contains the separator |
| `OwnerAnnotation.JoinAfterSplit` | pkg/controllers/hypershiftdeployment_controller.go:443 | splitting an annotation loses nothing |
| `OwnerAnnotation.ParsedWasFormatted` | pkg/controllers/hypershiftdeployment_controller.go:436-454 | an annotation that leads to a request was written from exactly that namespace and name |
| `OwnerAnnotation.LeadsBackToOwner` | pkg/controllers/manifestwork.go:86-91 | the annotation leads back to its deployment if and only if neither part contains the separator |
| `AzureTeardown.Deployment.Finish` | pkg/controllers/hypershiftdeployment_controller.go:404-428 | what the tail of the teardown leaves for each override, each configure and each outcome of its calls, and exactly when it drops the finalizer |
| `AzureTeardown.AwsNeverLeaks` | pkg/controllers/hypershiftdeployment_controller.go:404-411 | with the results the AWS destroyer returns, no outcome of the calls drops the finalizer over remaining resources |
| `AzureTeardown.AzureLeaksExactlyWhen` | pkg/controllers/azure_infra.go:92-122 | the exact outcomes in which an Azure teardown drops the finalizer over remaining resources |
| `AzureTeardown.BadCredentialsLeak` | pkg/controllers/azure_infra.go:96-104 | credentials that do not parse leak whatever is there as soon as both API writes succeed |

## Left out

- Watches, caching, logging, requeue delays and time: only the calls and their outcomes are kept.
- Security checks over cluster sets (`pkg/controllers/manifestwork.go:188-273`) and the reads that check references (`pkg/controllers/manifestwork.go:297-316`): one check that may fail; the set lookups are in a library that is not part of this model.
- Azure in the run theorems: its teardown does not keep the no-leak property, see `AzureTeardown`; its creation and scaffolding are left out.
- MainReconciler.Reconcile: does not model the Azure branches of creation and teardown, nor the check for a missing platform, which the assumptions exclude.
- MainReconciler.RunPass: the same as for Reconcile.
- MainReconciler.Reconciler.Deploy: the same as for Reconcile.
- MainTeardown.Destroyer.DestroyHypershift: does not model the Azure branch; `AzureTeardown.Deployment.Finish` does.
- MainCreation.Creator.CreateOrUpdateWork: the checks of references and of cluster sets are one check that may fail.
- MainTeardown.Destroyer.WriteStatus: a status write that would change nothing counts as a call in the exact call lists; under interference it may also be skipped.
- Payload.Builder.AppendReferenceSecrets: names the Azure credential secret after the hosted cluster in the payload; the source takes the name from the deployment's own spec, which is the same cluster unless it comes from a reference, where the source dereferences nil.
- Payload.AssembledIsWellFormed: does not claim the three AWS credential secrets a cluster names, which the source writes only from the deprecated credentials block or copies for a referenced cluster.
- Guarantees.CreationGate: speaks of users who leave issuer URL and role ARNs alone; the source does not check that they do.
- Teardown.TeardownEnds: says nothing about schedules in which some actor never again gets an undisturbed pass.
- `transferHostedClusterAnnotations`, `GetHostingNamespace`, `IsClusterInClusterSet`: a filter, a default and a set intersection; the hosting namespace is fixed in a run.
- Transition times of conditions, and feedback values that are not strings (the source would dereference nil).
- The order of manifest configs, which comes from a Go map.
- The full schemas of HostedCluster and NodePool: only fields the controllers read or write are kept.
- Pointers to node pools: `Scaffold` updates a sequence of values, so pools that share an object are not modelled.
- The status beyond the two gate conditions in the run model: other conditions are written by status steps that change the resource version only.
