/**
 What an undisturbed pass of either reconciler does, call by call: for each call, exactly when it is among
 the calls of the pass, in terms of the deployment, the work and the managed cluster it finds; and the
 order the creation must keep.
 */
module Passes {
  import opened Wrappers
  import opened Api
  import opened Payload
  import opened Lifecycle
  import opened MainTeardown
  import opened MainCreation
  import opened MainReconciler
  import ImportReconciler
  import Scaffold

  // ---- the import reconciler ---------------------------------------------------------------------

  /** The annotation reads "false", in whatever case. */
  predicate Silenced(h: Hyd) {
    h.createMc == ExactFalse || h.createMc == OtherCaseFalse
  }

  lemma CreatesClusterIff(w: World, kubeconfig: bool)
    requires w.hyd.Some?
    ensures Import(CreateCluster) in ImportReconciler.ImportPassCalls(w, kubeconfig)
       <==> !w.hyd.value.deleting && !Silenced(w.hyd.value) && w.mc.None?
    // The cluster is created before the deployment is marked.
    ensures Import(CreateCluster) in ImportReconciler.ImportPassCalls(w, kubeconfig) ==>
              ImportReconciler.ImportPassCalls(w, kubeconfig)[1] == Import(CreateCluster)
  {
  }

  lemma MarksIff(w: World, kubeconfig: bool)
    requires w.hyd.Some?
    ensures Import(SetImportFinalizer) in ImportReconciler.ImportPassCalls(w, kubeconfig)
       <==> !w.hyd.value.deleting && !Silenced(w.hyd.value) && ManagedClusterCleanup !in w.hyd.value.finalizers
  {
  }

  lemma SilencesIff(w: World, kubeconfig: bool)
    requires w.hyd.Some?
    ensures Import(SetAnnotation) in ImportReconciler.ImportPassCalls(w, kubeconfig)
       <==> && !w.hyd.value.deleting && !Silenced(w.hyd.value) && ManagedClusterCleanup in w.hyd.value.finalizers
            && (kubeconfig || (w.mc.Some? && w.mc.value.joined))
  {
  }

  lemma DetachesIff(w: World, kubeconfig: bool)
    requires w.hyd.Some?
    ensures Import(DetachCluster) in ImportReconciler.ImportPassCalls(w, kubeconfig)
       <==> w.hyd.value.deleting && w.mc.Some? && !w.mc.value.deleting
  {
  }

  lemma UnmarksIff(w: World, kubeconfig: bool)
    requires w.hyd.Some?
    ensures Import(RemoveImportFinalizer) in ImportReconciler.ImportPassCalls(w, kubeconfig)
       <==> && w.hyd.value.deleting && ManagedClusterCleanup in w.hyd.value.finalizers
            && (w.mc.None? || (w.mc.value.deleting && !w.mc.value.workFinalizer))
  {
  }

  // ---- the main reconciler on a deleting deployment --------------------------------------------------

  /** The pass gets to the teardown: held, and no managed cluster to wait for. */
  predicate GetsToTeardown(h: Hyd) {
    Destroy in h.finalizers && ManagedClusterCleanup !in h.finalizers
  }

  lemma InDestroyCalls(cfg: Config, fs: set<Finalizer>, works: map<string, Work>, id: string, a: MainAction)
    ensures Main(a) in DestroyCalls(cfg, fs, works, id)
       <==> && ManagedClusterCleanup !in fs
            && (|| (cfg.override != InfraOnly && (Main(a) in CleanupCalls(cfg, works, id) || a.TouchStatus?))
                || ((cfg.override == InfraOnly || id !in works)
                    && (Main(a) in CloudCalls(cfg, id) || a.RemoveDestroyFinalizer?)))
  {
  }

  lemma InDestroyPass(w: World, h: Hyd, a: MainAction)
    requires w.hyd == Some(h) && !a.BeginMain? && !a.EndMain?
    ensures Main(a) in DestroyPassCalls(w)
       <==> || Main(a) in FirstCalls(w.cfg, h)
            || (Destroy in h.finalizers && Main(a) in DestroyCalls(w.cfg, h.finalizers, w.works, h.infraID))
  {
  }

  lemma PatchesOptionIff(w: World, h: Hyd, id: string)
    requires w.hyd == Some(h)
    ensures Main(PatchDeleteOption(id)) in DestroyPassCalls(w)
       <==> && GetsToTeardown(h) && w.cfg.override != InfraOnly && w.cfg.override != Orphan
            && id == h.infraID && id in w.works && !w.works[id].deleting
            && !IsCalledFor(w.cfg, w.works[id].spec.deleteOption)
  {
    InDestroyPass(w, h, PatchDeleteOption(id));
    InDestroyCalls(w.cfg, h.finalizers, w.works, h.infraID, PatchDeleteOption(id));
  }

  /** What that call stores. */
  lemma PatchStoresTheOption(w: World, id: string)
    requires MainEnabled(w, PatchDeleteOption(id))
    ensures IsCalledFor(w.cfg, MainApply(w, PatchDeleteOption(id)).works[id].spec.deleteOption)
  {
  }

  lemma DeletesWorkIff(w: World, h: Hyd, id: string)
    requires w.hyd == Some(h)
    ensures Main(DeleteWork(id)) in DestroyPassCalls(w)
       <==> && GetsToTeardown(h) && w.cfg.override != InfraOnly
            && id == h.infraID && id in w.works && !w.works[id].deleting
            && (w.cfg.override == Orphan
                || (IsCalledFor(w.cfg, w.works[id].spec.deleteOption)
                    && w.works[id].available == Some(Availability(true, w.works[id].generation))))
  {
    InDestroyPass(w, h, DeleteWork(id));
    InDestroyCalls(w.cfg, h.finalizers, w.works, h.infraID, DeleteWork(id));
  }

  /** The teardown has nothing to wait for on the hosting cluster. */
  predicate WorkIsGone(w: World, h: Hyd) {
    w.cfg.override == InfraOnly || h.infraID !in w.works
  }

  lemma DestroysInfraIff(w: World, h: Hyd, id: string, stage: Stage)
    requires w.hyd == Some(h)
    ensures Main(DestroyInfra(id, stage)) in DestroyPassCalls(w)
       <==> && GetsToTeardown(h) && WorkIsGone(w, h) && w.cfg.configure && w.cfg.override != Orphan
            && id == h.infraID && stage == Absent
  {
    InDestroyPass(w, h, DestroyInfra(id, stage));
    InDestroyCalls(w.cfg, h.finalizers, w.works, h.infraID, DestroyInfra(id, stage));
  }

  lemma DestroysIamIff(w: World, h: Hyd, id: string, iam: Iam)
    requires w.hyd == Some(h)
    ensures Main(DestroyIam(id, iam)) in DestroyPassCalls(w)
       <==> && GetsToTeardown(h) && WorkIsGone(w, h) && w.cfg.configure && w.cfg.override != Orphan
            && id == h.infraID && iam == NoIam
  {
    InDestroyPass(w, h, DestroyIam(id, iam));
    InDestroyCalls(w.cfg, h.finalizers, w.works, h.infraID, DestroyIam(id, iam));
  }

  lemma ReleasesIff(w: World, h: Hyd)
    requires w.hyd == Some(h)
    ensures Main(RemoveDestroyFinalizer) in DestroyPassCalls(w) <==> GetsToTeardown(h) && WorkIsGone(w, h)
  {
    InDestroyPass(w, h, RemoveDestroyFinalizer);
    InDestroyCalls(w.cfg, h.finalizers, w.works, h.infraID, RemoveDestroyFinalizer);
  }

  /** A pass over a deleting deployment builds nothing and deploys nothing. */
  lemma DestroyPassOnlyDestroys(w: World, a: MainAction)
    requires w.hyd.Some? && Main(a) in DestroyPassCalls(w) && !a.BeginMain? && !a.EndMain?
    ensures !a.PersistId? && !a.CreateInfra? && !a.CreateIam? && !a.RecordInfra? && !a.RecordIam?
            && !a.SetDefaults? && !a.CreateWork? && !a.UpdateWork?
    ensures (a.MarkInfra? || a.MarkIam?) ==> !a.ready
  {
    var h := w.hyd.value;
    InDestroyPass(w, h, a);
    InDestroyCalls(w.cfg, h.finalizers, w.works, h.infraID, a);
  }

  // ---- both kinds of pass of the main reconciler -----------------------------------------------------

  /** Roles are migrated, in front of everything else, if and only if the AWS spec has the deprecated list. */
  lemma MigratesIff(cfg: Config, h: Hyd)
    ensures Main(MigrateRoles) in FirstCalls(cfg, h)
       <==> h.cluster.Some? && h.cluster.value.aws.Some? && h.cluster.value.aws.value.roles.Some?
    ensures Main(MigrateRoles) in FirstCalls(cfg, h) ==> FirstCalls(cfg, h)[0] == Main(MigrateRoles)
  {
  }

  /** The provider secret is looked at if and only if the platform is configured or the cluster is on Azure. */
  lemma LooksAtSecretIff(cfg: Config, h: Hyd)
    ensures Main(TouchStatus) in FirstCalls(cfg, h)
       <==> cfg.configure || (h.cluster.Some? && h.cluster.value.azureCredentials.Some?)
  {
  }

  // ---- the main reconciler on a live deployment ------------------------------------------------------

  lemma InCreatePass(w: World, h: Hyd, env: Environment, a: MainAction)
    requires w.hyd == Some(h) && env.infraOut.zones != [] && !a.BeginMain? && !a.EndMain?
    ensures Main(a) in CreatePassCalls(w, env)
       <==> || Main(a) in FirstCalls(w.cfg, h)
            || Main(a) in PersistCalls(w.cfg, h, env.suffix)
            || Main(a) in BeforeGate(w.cfg, Named(w.cfg, h, env.suffix), env)
            || Main(a) in AfterGate(w.cfg, Named(w.cfg, h, env.suffix), w.works, env)
  {
  }

  lemma FirstCallsPrepare(cfg: Config, h: Hyd, suffix: string, a: MainAction)
    requires Main(a) in FirstCalls(cfg, h) || Main(a) in PersistCalls(cfg, h, suffix)
    ensures a.MigrateRoles? || a.TouchStatus? || a.PersistId?
  {
  }

  /** The calls up to the gate build; they store no id and write no work. */
  lemma BeforeGateBuilds(cfg: Config, h: Hyd, env: Environment, a: MainAction)
    requires env.infraOut.zones != [] && Main(a) in BeforeGate(cfg, h, env)
    ensures a.MarkInfra? || a.MarkIam? || a.CreateInfra? || a.CreateIam? || a.RecordInfra? || a.RecordIam?
  {
  }

  /** The calls behind it complete the spec and write the work. */
  lemma AfterGateDeploys(cfg: Config, h: Hyd, works: map<string, Work>, env: Environment, a: MainAction)
    requires env.infraOut.zones != [] && Main(a) in AfterGate(cfg, h, works, env)
    ensures a.SetDefaults? || a.CreateWork? || a.UpdateWork? || a.TouchStatus?
    ensures cfg.override != InfraOnly
  {
  }

  /** The id is stored if and only if the finalizer is missing, and it is the user's if there is one. */
  lemma PersistsIff(w: World, h: Hyd, env: Environment, id: string)
    requires w.hyd == Some(h) && env.infraOut.zones != []
    ensures Main(PersistId(id)) in CreatePassCalls(w, env)
       <==> Destroy !in h.finalizers && id == if h.infraID == "" then w.cfg.name + "-" + env.suffix else h.infraID
  {
    var a, named := PersistId(id), Named(w.cfg, h, env.suffix);
    InCreatePass(w, h, env, a);
    if Main(a) in BeforeGate(w.cfg, named, env) {
      BeforeGateBuilds(w.cfg, named, env, a);
    }
    if Main(a) in AfterGate(w.cfg, named, w.works, env) {
      AfterGateDeploys(w.cfg, named, w.works, env, a);
    }
  }

  /** Something is to be built: the platform is configured, its region is known, and a gate is shut. */
  predicate Builds(cfg: Config, h: Hyd) {
    cfg.configure && cfg.region != "" && !(h.infraReady && h.iamReady)
  }

  /** Every pool that needs a subnet finds a zone at its index. */
  predicate ZonesSuffice(h: Hyd, zones: seq<Zone>) {
    forall i | 0 <= i < |h.pools| && (h.pools[i].spec.aws.None? || h.pools[i].spec.aws.value.subnet.None?) :: i < |zones|
  }

  /** The infra id of the deployment, or the fresh one if it has none. */
  function PassId(cfg: Config, h: Hyd, env: Environment): string {
    if h.infraID == "" then cfg.name + "-" + env.suffix else h.infraID
  }

  lemma PoolsForIff(cfg: Config, h: Hyd, spec: HostedClusterSpec, out: InfraOutput)
    ensures PoolsFor(cfg, h, spec, out).Some? <==> ZonesSuffice(h, out.zones)
  {
  }

  lemma InBuildCalls(cfg: Config, h: Hyd, env: Environment, a: MainAction)
    requires env.infraOut.zones != []
    requires a.CreateInfra? || a.CreateIam? || a == MarkInfra(true) || a == MarkIam(true)
    ensures Main(a) in BuildCalls(cfg, h, env.infraOut, env.iamOut, env.uuid)
       <==> && cfg.region != "" && !(h.infraReady && h.iamReady)
            && (a == CreateInfra(h.infraID, Full)
                || (ZonesSuffice(h, env.infraOut.zones)
                    && (a == CreateIam(h.infraID, FullIam(env.iamOut)) || a == MarkInfra(true) || a == MarkIam(true))))
  {
    PoolsForIff(cfg, h, Scaffolded(cfg, h, env.infraOut, env.uuid), env.infraOut);
  }

  lemma InBeforeGate(cfg: Config, h: Hyd, env: Environment, a: MainAction)
    requires env.infraOut.zones != []
    requires a.CreateInfra? || a.CreateIam? || a.RecordInfra? || a.RecordIam? || a == MarkInfra(true) || a == MarkIam(true)
    ensures Main(a) in BeforeGate(cfg, h, env)
       <==> cfg.configure && Main(a) in BuildCalls(cfg, h, env.infraOut, env.iamOut, env.uuid)
  {
  }

  lemma NamedKeeps(cfg: Config, h: Hyd, env: Environment)
    ensures var named := Named(cfg, h, env.suffix);
            && named.infraID == PassId(cfg, h, env) && named.pools == h.pools
            && named.infraReady == h.infraReady && named.iamReady == h.iamReady
  {
  }

  lemma BuildsBeforeGate(w: World, h: Hyd, env: Environment, a: MainAction)
    requires w.hyd == Some(h) && env.infraOut.zones != []
    requires a.CreateInfra? || a.CreateIam? || a.RecordInfra? || a.RecordIam? || a == MarkInfra(true) || a == MarkIam(true)
    ensures Main(a) in CreatePassCalls(w, env) <==> Main(a) in BeforeGate(w.cfg, Named(w.cfg, h, env.suffix), env)
  {
    var named := Named(w.cfg, h, env.suffix);
    InCreatePass(w, h, env, a);
    if Main(a) in FirstCalls(w.cfg, h) || Main(a) in PersistCalls(w.cfg, h, env.suffix) {
      FirstCallsPrepare(w.cfg, h, env.suffix, a);
    }
    if Main(a) in AfterGate(w.cfg, named, w.works, env) {
      AfterGateDeploys(w.cfg, named, w.works, env, a);
    }
  }

  lemma BuildsIff(w: World, h: Hyd, env: Environment, a: MainAction)
    requires w.hyd == Some(h) && env.infraOut.zones != []
    requires a.CreateInfra? || a.CreateIam? || a == MarkInfra(true) || a == MarkIam(true)
    ensures Main(a) in CreatePassCalls(w, env)
       <==> && Builds(w.cfg, h)
            && (a == CreateInfra(PassId(w.cfg, h, env), Full)
                || (ZonesSuffice(h, env.infraOut.zones)
                    && (a == CreateIam(PassId(w.cfg, h, env), FullIam(env.iamOut))
                        || a == MarkInfra(true) || a == MarkIam(true))))
  {
    var named := Named(w.cfg, h, env.suffix);
    BuildsBeforeGate(w, h, env, a);
    NamedKeeps(w.cfg, h, env);
    InBeforeGate(w.cfg, named, env, a);
    InBuildCalls(w.cfg, named, env, a);
  }

  /** What the two patches of the build store. */
  lemma RecordsIff(w: World, h: Hyd, env: Environment, a: MainAction, spec: HostedClusterSpec)
    requires w.hyd == Some(h) && env.infraOut.zones != [] && (a.RecordInfra? || a.RecordIam?)
    requires spec == Scaffold.AwsScaffold(
                       Named(w.cfg, h, env.suffix).cluster, w.cfg.name, PassId(w.cfg, h, env), w.cfg.configure, w.cfg.region,
                       env.infraOut, env.uuid)
    ensures Main(a) in CreatePassCalls(w, env)
       <==> && Builds(w.cfg, h) && ZonesSuffice(h, env.infraOut.zones)
            && (|| a == RecordIam(env.iamOut)
                || a == RecordInfra(spec, ZonedPools(h.pools, w.cfg.name, PassId(w.cfg, h, env), spec, env.infraOut)))
  {
    var named := Named(w.cfg, h, env.suffix);
    BuildsBeforeGate(w, h, env, a);
    NamedKeeps(w.cfg, h, env);
    InBeforeGate(w.cfg, named, env, a);
    InRecordCalls(w.cfg, named, env, a, spec);
  }

  /** The pools with their zones, where there are enough zones. */
  function ZonedPools(pools: seq<NodePool>, name: string, id: string, spec: HostedClusterSpec, out: InfraOutput): seq<NodePool> {
    if Scaffold.IndexSafe(Scaffold.StartingPools(pools, name, Some(spec), out.zones), out.zones)
    then Scaffold.ScaffoldedPools(pools, name, id, Some(spec), out) else []
  }

  lemma InRecordCalls(cfg: Config, h: Hyd, env: Environment, a: MainAction, spec: HostedClusterSpec)
    requires env.infraOut.zones != [] && (a.RecordInfra? || a.RecordIam?)
    requires spec == Scaffolded(cfg, h, env.infraOut, env.uuid)
    ensures Main(a) in BuildCalls(cfg, h, env.infraOut, env.iamOut, env.uuid)
       <==> && cfg.region != "" && !(h.infraReady && h.iamReady) && ZonesSuffice(h, env.infraOut.zones)
            && (|| a == RecordIam(env.iamOut)
                || a == RecordInfra(spec, ZonedPools(h.pools, cfg.name, h.infraID, spec, env.infraOut)))
  {
    PoolsForIff(cfg, h, spec, env.infraOut);
  }

  /** The gate, as a pass meets it: nothing to configure, both gates open, or both opened by this pass. */
  predicate GateOpens(cfg: Config, h: Hyd, zones: seq<Zone>) {
    !cfg.configure || (cfg.region != "" && ((h.infraReady && h.iamReady) || ZonesSuffice(h, zones)))
  }

  lemma CanDeployIff(cfg: Config, h: Hyd, env: Environment)
    requires env.infraOut.zones != []
    ensures CanDeploy(cfg, h, env) <==> cfg.override != InfraOnly && GateOpens(cfg, h, env.infraOut.zones)
  {
    PoolsForIff(cfg, h, Scaffolded(cfg, h, env.infraOut, env.uuid), env.infraOut);
  }

  /** The spec at the gate: scaffolded and with the IAM run's issuer and roles if the pass built, else as it was. */
  lemma SpecAtGateIs(cfg: Config, h: Hyd, env: Environment, scaffolded: HostedClusterSpec)
    requires env.infraOut.zones != [] && CanDeploy(cfg, h, env)
    requires scaffolded == Scaffold.AwsScaffold(
                             h.cluster, cfg.name, h.infraID, cfg.configure, cfg.region, env.infraOut, env.uuid)
    ensures SpecAtGate(cfg, h, env)
         == if Builds(cfg, h)
            then Spec(Some(scaffolded.(
                        issuerURL := env.iamOut.issuerURL,
                        aws := Some(scaffolded.aws.value.(rolesRef := env.iamOut.roles)))),
                      ZonedPools(h.pools, cfg.name, h.infraID, scaffolded, env.infraOut))
            else Spec(h.cluster, h.pools)
  {
  }

  /** The defaults are stored if and only if one of them is missing; what the user set is stored again. */
  lemma StoresDefaultsIff(spec: Spec, uuid: string, clusterID: string, catalog: string)
    ensures Main(SetDefaults(clusterID, catalog)) in DefaultCalls(spec, uuid)
       <==> && spec.cluster.Some? && (spec.cluster.value.clusterID == "" || spec.cluster.value.olmCatalogPlacement == "")
            && clusterID == (if spec.cluster.value.clusterID == "" then uuid else spec.cluster.value.clusterID)
            && catalog == (if spec.cluster.value.olmCatalogPlacement == "" then "management"
                           else spec.cluster.value.olmCatalogPlacement)
  {
  }

  predicate WritesWork(a: MainAction) {
    a.CreateWork? || a.UpdateWork?
  }

  lemma WorkCallsWrite(id: string, spec: Spec, works: map<string, Work>, inp: Inputs, a: MainAction)
    requires Main(a) in WorkCalls(id, spec, works, inp) && WritesWork(a)
    ensures a.id == id && (a.CreateWork? <==> id !in works)
  {
  }

  lemma AfterGateWrites(cfg: Config, h: Hyd, works: map<string, Work>, env: Environment, a: MainAction)
    requires env.infraOut.zones != [] && Main(a) in AfterGate(cfg, h, works, env) && WritesWork(a)
    ensures CanDeploy(cfg, h, env) && a.id == h.infraID && (a.CreateWork? <==> h.infraID !in works)
  {
    var spec := SpecAtGate(cfg, h, env);
    assert Main(a) in DefaultCalls(spec, env.uuid) + WorkCalls(h.infraID, Completed(spec, env.uuid), works, env.inputs);
    assert Main(a) !in DefaultCalls(spec, env.uuid);
    WorkCallsWrite(h.infraID, Completed(spec, env.uuid), works, env.inputs, a);
  }

  /** A work is written only behind the gate, under the deployment's id, and created only where there is none. */
  lemma WritesWorkOnlyBehindGate(w: World, h: Hyd, env: Environment, a: MainAction)
    requires w.hyd == Some(h) && env.infraOut.zones != []
    requires Main(a) in CreatePassCalls(w, env) && WritesWork(a)
    ensures w.cfg.override != InfraOnly && GateOpens(w.cfg, h, env.infraOut.zones)
    ensures a.id == PassId(w.cfg, h, env) && (a.CreateWork? <==> a.id !in w.works)
  {
    var named := Named(w.cfg, h, env.suffix);
    InCreatePass(w, h, env, a);
    if Main(a) in BeforeGate(w.cfg, named, env) {
      BeforeGateBuilds(w.cfg, named, env, a);
    }
    AfterGateWrites(w.cfg, named, w.works, env, a);
    CanDeployIff(w.cfg, named, env);
  }

  /** There is a cluster to deploy, and the deployment's own pools belong to it. */
  predicate Deployable(spec: Spec, inp: Inputs) {
    && (spec.cluster.Some? || (!inp.configure && inp.clusterRef != ""))
    && (spec.cluster.Some? ==> forall i | 0 <= i < |spec.pools| ::
          spec.pools[i].spec.platformType == spec.cluster.value.platformType && spec.pools[i].spec.clusterName == inp.name)
  }

  lemma DeployableIff(spec: Spec, inp: Inputs)
    ensures Deployable(spec, inp) <==> (spec.cluster.Some? || ByReference(inp)) && PoolsMatch(inp.name, spec)
  {
    if spec.cluster.Some? && PoolsMatch(inp.name, spec) {
      forall i | 0 <= i < |spec.pools|
        ensures spec.pools[i].spec.platformType == spec.cluster.value.platformType
                && spec.pools[i].spec.clusterName == inp.name {
        assert spec.pools[i] in spec.pools;
      }
    }
  }

  lemma WorkCallsAre(id: string, spec: Spec, works: map<string, Work>, inp: Inputs, own: Inputs, stored: seq<Manifest>)
    requires own == WithSpec(inp, spec) && stored == StoredUnder(works, id)
    ensures if Deployable(spec, inp) && Assembles(own, stored)
            then WorkCalls(id, spec, works, inp) == [Main(WriteCall(works, id, Assembled(own, stored))), Main(TouchStatus)]
            else WorkCalls(id, spec, works, inp) == [] || WorkCalls(id, spec, works, inp) == [Main(TouchStatus)]
  {
    DeployableIff(spec, inp);
  }

  lemma OneWrite(calls: seq<Action>, works: map<string, Work>, id: string, written: seq<Manifest>, payload: seq<Manifest>)
    requires calls == [Main(WriteCall(works, id, written)), Main(TouchStatus)]
    ensures Main(if id in works then UpdateWork(id, payload) else CreateWork(id, payload)) in calls <==> payload == written
  {
  }

  lemma NoWrite(calls: seq<Action>, works: map<string, Work>, id: string, payload: seq<Manifest>)
    requires calls == [] || calls == [Main(TouchStatus)]
    ensures Main(if id in works then UpdateWork(id, payload) else CreateWork(id, payload)) !in calls
  {
  }

  /** What behind the gate is written: what the loaders make of this spec and the payload stored under this id. */
  lemma WorkIsWrittenIff(
    id: string, spec: Spec, works: map<string, Work>, inp: Inputs, own: Inputs, stored: seq<Manifest>, payload: seq<Manifest>)
    requires own == inp.(ownCluster := if spec.cluster.Some? then spec.cluster.value else inp.ownCluster, ownPools := spec.pools)
    requires stored == if id in works then works[id].spec.payload else []
    ensures Main(if id in works then UpdateWork(id, payload) else CreateWork(id, payload)) in WorkCalls(id, spec, works, inp)
       <==> Deployable(spec, inp) && Assembles(own, stored) && payload == Assembled(own, stored)
  {
    assert own == WithSpec(inp, spec) && stored == StoredUnder(works, id);
    WorkCallsAre(id, spec, works, inp, own, stored);
    if Deployable(spec, inp) && Assembles(own, stored) {
      OneWrite(WorkCalls(id, spec, works, inp), works, id, Assembled(own, stored), payload);
    } else {
      NoWrite(WorkCalls(id, spec, works, inp), works, id, payload);
    }
  }

  lemma InAfterGate(cfg: Config, h: Hyd, works: map<string, Work>, env: Environment, a: MainAction)
    requires env.infraOut.zones != [] && CanDeploy(cfg, h, env) && WritesWork(a)
    ensures Main(a) in AfterGate(cfg, h, works, env)
       <==> Main(a) in WorkCalls(h.infraID, Completed(SpecAtGate(cfg, h, env), env.uuid), works, env.inputs)
  {
    var spec := SpecAtGate(cfg, h, env);
    assert AfterGate(cfg, h, works, env)
        == DefaultCalls(spec, env.uuid) + WorkCalls(h.infraID, Completed(spec, env.uuid), works, env.inputs);
    assert Main(a) !in DefaultCalls(spec, env.uuid);
  }

  lemma WritesBehindGate(w: World, h: Hyd, env: Environment, a: MainAction)
    requires w.hyd == Some(h) && env.infraOut.zones != [] && WritesWork(a)
    ensures Main(a) in CreatePassCalls(w, env) <==> Main(a) in AfterGate(w.cfg, Named(w.cfg, h, env.suffix), w.works, env)
  {
    InCreatePass(w, h, env, a);
    if Main(a) in FirstCalls(w.cfg, h) || Main(a) in PersistCalls(w.cfg, h, env.suffix) {
      FirstCallsPrepare(w.cfg, h, env.suffix, a);
    }
    if Main(a) in BeforeGate(w.cfg, Named(w.cfg, h, env.suffix), env) {
      BeforeGateBuilds(w.cfg, Named(w.cfg, h, env.suffix), env, a);
    }
  }

  /**
   The work a pass writes once the gate is open: what the loaders make of the completed spec and of the
   payload stored under the deployment's id, if there is a cluster to deploy and its pools match.
   */
  lemma PassWritesIff(
    w: World, h: Hyd, env: Environment, id: string, spec: Spec, own: Inputs, stored: seq<Manifest>, payload: seq<Manifest>)
    requires w.hyd == Some(h) && env.infraOut.zones != [] && id == PassId(w.cfg, h, env)
    requires CanDeploy(w.cfg, Named(w.cfg, h, env.suffix), env)
    requires spec == Completed(SpecAtGate(w.cfg, Named(w.cfg, h, env.suffix), env), env.uuid)
    requires own == env.inputs.(ownCluster := if spec.cluster.Some? then spec.cluster.value else env.inputs.ownCluster,
                                ownPools := spec.pools)
    requires stored == if id in w.works then w.works[id].spec.payload else []
    ensures Main(if id in w.works then UpdateWork(id, payload) else CreateWork(id, payload)) in CreatePassCalls(w, env)
       <==> Deployable(spec, env.inputs) && Assembles(own, stored) && payload == Assembled(own, stored)
  {
    var a := if id in w.works then UpdateWork(id, payload) else CreateWork(id, payload);
    NamedKeeps(w.cfg, h, env);
    WritesBehindGate(w, h, env, a);
    InAfterGate(w.cfg, Named(w.cfg, h, env.suffix), w.works, env, a);
    WorkIsWrittenIff(id, spec, w.works, env.inputs, own, stored, payload);
  }

  lemma DefaultsInAfterGate(cfg: Config, h: Hyd, works: map<string, Work>, env: Environment, a: MainAction)
    requires env.infraOut.zones != [] && CanDeploy(cfg, h, env) && a.SetDefaults?
    ensures Main(a) in AfterGate(cfg, h, works, env) <==> Main(a) in DefaultCalls(SpecAtGate(cfg, h, env), env.uuid)
  {
    var spec := SpecAtGate(cfg, h, env);
    var work := WorkCalls(h.infraID, Completed(spec, env.uuid), works, env.inputs);
    assert AfterGate(cfg, h, works, env) == DefaultCalls(spec, env.uuid) + work;
    assert Main(a) !in work;
  }

  /** The defaults it stores before that: only if the spec at the gate lacks one, and then both as they will be deployed. */
  lemma PassStoresDefaultsIff(w: World, h: Hyd, env: Environment, gate: Spec, clusterID: string, catalog: string)
    requires w.hyd == Some(h) && env.infraOut.zones != []
    requires CanDeploy(w.cfg, Named(w.cfg, h, env.suffix), env) && gate == SpecAtGate(w.cfg, Named(w.cfg, h, env.suffix), env)
    ensures Main(SetDefaults(clusterID, catalog)) in CreatePassCalls(w, env)
       <==> && gate.cluster.Some? && (gate.cluster.value.clusterID == "" || gate.cluster.value.olmCatalogPlacement == "")
            && clusterID == (if gate.cluster.value.clusterID == "" then env.uuid else gate.cluster.value.clusterID)
            && catalog == (if gate.cluster.value.olmCatalogPlacement == "" then "management"
                           else gate.cluster.value.olmCatalogPlacement)
  {
    var a, named := SetDefaults(clusterID, catalog), Named(w.cfg, h, env.suffix);
    InCreatePass(w, h, env, a);
    if Main(a) in FirstCalls(w.cfg, h) || Main(a) in PersistCalls(w.cfg, h, env.suffix) {
      FirstCallsPrepare(w.cfg, h, env.suffix, a);
    }
    if Main(a) in BeforeGate(w.cfg, named, env) {
      BeforeGateBuilds(w.cfg, named, env, a);
    }
    DefaultsInAfterGate(w.cfg, named, w.works, env, a);
    StoresDefaultsIff(gate, env.uuid, clusterID, catalog);
  }
}
