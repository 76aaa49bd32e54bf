/**
 The lifecycle of one HypershiftDeployment as a labelled transition system.

 Five actors take steps on a shared world: the user, the managed-cluster import controller, the work
 agent on the hosting cluster, and the two reconcilers of this repository. The world holds what the
 API servers and the cloud hold; a step is one API call or cloud call that had an effect. A call that
 fails without an effect is no step, and a reconcile may stop after any call, so every prefix of a
 run is a run.

 `Enabled` says when an actor takes a step. For the reconcilers it is what their code establishes
 before the call; the Reconcile methods are proved to take no other steps.
 */
module Lifecycle {
  import opened Wrappers
  import opened Api
  import opened Payload
  import opened RoleMigration

  datatype Override = NoOverride | Orphan | InfraOnly | DeleteHostingNamespace

  /** The parts of the deployment's spec that are fixed for the whole run. */
  datatype Config = Config(
    name: string,
    override: Override,
    configure: bool,
    region: string,
    hostingNamespace: string,
    byReference: bool)

  datatype Finalizer = Destroy | ManagedClusterCleanup

  /** The create-managed-cluster annotation; the reader ignores case, the writer stores "false". */
  datatype Annotation = Unset | ExactFalse | OtherCaseFalse | OtherValue

  predicate SaysFalse(a: Annotation) {
    a.ExactFalse? || a.OtherCaseFalse?
  }

  /**
   The stored HypershiftDeployment. `infraReady` and `iamReady` say that the two gate conditions are
   True; `version` is the resource version.
   */
  datatype Hyd = Hyd(
    deleting: bool,
    finalizers: set<Finalizer>,
    version: nat,
    infraID: string,
    createMc: Annotation,
    infraReady: bool,
    iamReady: bool,
    cluster: Option<HostedClusterSpec>,
    pools: seq<NodePool>)

  datatype DeleteOption = OrphanAll | Foreground | SelectivelyOrphan(namespace: string)

  datatype WorkSpec = WorkSpec(deleteOption: DeleteOption, payload: seq<Manifest>)

  /** What the agent applied last, and the generation it read it at. */
  datatype Consumed = Consumed(generation: nat, spec: WorkSpec)

  datatype Availability = Availability(ok: bool, observedGeneration: nat)

  datatype Work = Work(
    generation: nat,
    spec: WorkSpec,
    deleting: bool,
    consumed: Option<Consumed>,
    available: Option<Availability>)

  datatype ManagedCluster = ManagedCluster(deleting: bool, workFinalizer: bool, joined: bool)

  datatype Stage = Absent | Partial | Full

  datatype Iam = NoIam | PartialIam | FullIam(out: IamOutput)

  datatype Cloud = Cloud(infra: Stage, iam: Iam)

  const NOTHING := Cloud(Absent, NoIam)

  datatype MainPass = MainIdle | Creating | Destroying

  /** An import pass over a live deployment, one that the annotation ends at once, or one over a deleting deployment. */
  datatype ImportPass = ImportIdle | Importing | Skipping | Detaching

  /**
   `works` are the ManifestWorks in the hosting cluster's namespace and `cloud` the cloud resources,
   both by infra id. `hosted` are the objects on the hosting cluster. `everImported` and `removed`
   are history: the managed-cluster finalizer was set once; the agent removed a work that had put
   these objects on the hosting cluster.
   */
  datatype World = World(
    cfg: Config,
    hyd: Option<Hyd>,
    works: map<string, Work>,
    cloud: map<string, Cloud>,
    mc: Option<ManagedCluster>,
    hosted: set<Manifest>,
    main: MainPass,
    imp: ImportPass,
    everImported: bool,
    removed: Option<set<Manifest>>)

  function CloudOf(w: World, id: string): Cloud {
    if id in w.cloud then w.cloud[id] else NOTHING
  }

  /** The delete option an override calls for (setManifestWorkSelectivelyDeleteOption). */
  function Wanted(cfg: Config): DeleteOption {
    match cfg.override
    case Orphan => OrphanAll
    case DeleteHostingNamespace => Foreground
    case _ => SelectivelyOrphan(cfg.hostingNamespace)
  }

  function Objects(payload: seq<Manifest>): set<Manifest> {
    set m | m in payload
  }

  /** What is left of a work's objects when the agent removes them under a delete option. */
  function Kept(option: DeleteOption, objects: set<Manifest>): set<Manifest> {
    match option
    case OrphanAll => objects
    case Foreground => {}
    case SelectivelyOrphan(ns) => set m | m in objects && m == Namespace(ns)
  }

  predicate HasFinalizer(w: World, f: Finalizer) {
    w.hyd.Some? && f in w.hyd.value.finalizers
  }

  /** The deployment still exists, holds the destroy finalizer, and its infra id is `id`. */
  predicate Holds(w: World, id: string) {
    w.hyd.Some? && Destroy in w.hyd.value.finalizers && w.hyd.value.infraID == id
  }

  /** The managed cluster is gone, or going with the import controller's own works cleaned up. */
  predicate ClusterDown(mc: Option<ManagedCluster>) {
    mc.None? || (mc.value.deleting && !mc.value.workFinalizer)
  }

  /** A hosted cluster spec carries the output of an IAM run. */
  predicate CarriesIam(spec: HostedClusterSpec, out: IamOutput) {
    spec.issuerURL == out.issuerURL && spec.aws.Some? && spec.aws.value.rolesRef == out.roles
  }

  /** The hosted cluster manifest of a payload has the issuer and the roles of `spec`. */
  predicate SameIdentity(payload: seq<Manifest>, spec: HostedClusterSpec) {
    && |payload| >= 2 && payload[1].HostedClusterObj?
    && payload[1].spec.issuerURL == spec.issuerURL
    && (spec.aws.Some? ==> payload[1].spec.aws.Some? && payload[1].spec.aws.value.rolesRef == spec.aws.value.rolesRef)
  }

  /** The agent has applied the work as it is now. */
  predicate UpToDate(work: Work) {
    work.consumed == Some(Consumed(work.generation, work.spec))
  }

  /**
   The main pass in flight may store its whole copy of the deployment: it read the deployment alive, or
   the deprecated role list is still to be migrated.
   */
  predicate Rewriting(w: World) {
    || w.main == Creating
    || (w.main == Destroying && w.hyd.Some? && HasDeprecatedRoles(w.hyd.value.cluster))
  }

  /** A rewrite of the cluster spec that leaves its issuer and its roles alone. */
  predicate KeepsIdentity(before: Option<HostedClusterSpec>, after: Option<HostedClusterSpec>) {
    before.Some? ==>
      && after.Some? && after.value.issuerURL == before.value.issuerURL
      && (before.value.aws.Some? ==>
            after.value.aws.Some? && after.value.aws.value.rolesRef == before.value.aws.value.rolesRef)
  }

  // ---- actions -----------------------------------------------------------------------------------

  datatype UserAction =
    | DeleteDeployment
    | DeleteCluster
    | EditSpec(cluster: Option<HostedClusterSpec>, pools: seq<NodePool>)

  datatype ControllerAction =
    | Join
    | AddWorkFinalizer
    | DropWorkFinalizer
    | RemoveCluster

  datatype AgentAction =
    | Consume(id: string)
    | Report(id: string, ok: bool)
    | FinishRemoval(id: string)

  datatype MainAction =
    | BeginMain
    | EndMain
    | MigrateRoles
    | PersistId(id: string)
    | TouchStatus
    | MarkInfra(ready: bool)
    | MarkIam(ready: bool)
    | CreateInfra(id: string, stage: Stage)
    | RecordInfra(spec: HostedClusterSpec, pools: seq<NodePool>)
    | CreateIam(id: string, iam: Iam)
    | RecordIam(out: IamOutput)
    | SetDefaults(clusterID: string, catalog: string)
    | CreateWork(id: string, payload: seq<Manifest>)
    | UpdateWork(id: string, payload: seq<Manifest>)
    | PatchDeleteOption(id: string)
    | DeleteWork(id: string)
    | DestroyInfra(id: string, stage: Stage)
    | DestroyIam(id: string, iam: Iam)
    | RemoveDestroyFinalizer

  datatype ImportAction =
    | BeginImport
    | EndImport
    | CreateCluster
    | SetImportFinalizer
    | SetAnnotation
    | DetachCluster
    | RemoveImportFinalizer

  datatype Action =
    | User(user: UserAction)
    | Controller(controller: ControllerAction)
    | Agent(agent: AgentAction)
    | Main(main: MainAction)
    | Import(imp: ImportAction)

  // ---- effects on the stored deployment ----------------------------------------------------------

  /** An object that is deleting goes away with its last finalizer. */
  function WithFinalizers(h: Hyd, fs: set<Finalizer>): Option<Hyd> {
    if h.deleting && fs == {} then None else Some(h.(finalizers := fs, version := h.version + 1))
  }

  function Write(w: World, h: Hyd): World
    requires w.hyd.Some?
  {
    w.(hyd := Some(h.(version := w.hyd.value.version + 1)))
  }

  // ---- user --------------------------------------------------------------------------------------

  predicate UserEnabled(w: World, a: UserAction) {
    match a
    case DeleteDeployment => w.hyd.Some? && !w.hyd.value.deleting
    case DeleteCluster => w.mc.Some? && !w.mc.value.deleting
    case EditSpec(cluster, _) =>
      w.hyd.Some? && !Rewriting(w) && KeepsIdentity(w.hyd.value.cluster, cluster) && !HasDeprecatedRoles(cluster)
  }

  function UserApply(w: World, a: UserAction): World
    requires UserEnabled(w, a)
  {
    match a
    case DeleteDeployment => w.(hyd := WithFinalizers(w.hyd.value.(deleting := true), w.hyd.value.finalizers))
    case DeleteCluster => w.(mc := Some(w.mc.value.(deleting := true)))
    case EditSpec(cluster, pools) => Write(w, w.hyd.value.(cluster := cluster, pools := pools))
  }

  // ---- managed-cluster import controller -----------------------------------------------------------

  predicate ControllerEnabled(w: World, a: ControllerAction) {
    match a
    case Join => w.mc.Some?
    case AddWorkFinalizer => w.mc.Some? && !w.mc.value.deleting
    case DropWorkFinalizer => w.mc.Some? && w.mc.value.deleting
    case RemoveCluster => w.mc.Some? && w.mc.value.deleting && !w.mc.value.workFinalizer
  }

  function ControllerApply(w: World, a: ControllerAction): World
    requires ControllerEnabled(w, a)
  {
    match a
    case Join => w.(mc := Some(w.mc.value.(joined := true)))
    case AddWorkFinalizer => w.(mc := Some(w.mc.value.(workFinalizer := true)))
    case DropWorkFinalizer => w.(mc := Some(w.mc.value.(workFinalizer := false)))
    case RemoveCluster => w.(mc := None)
  }

  // ---- work agent --------------------------------------------------------------------------------

  predicate AgentEnabled(w: World, a: AgentAction) {
    && a.id in w.works
    && match a
       case Consume(id) => !w.works[id].deleting
       case Report(id, _) => w.works[id].consumed.Some?
       case FinishRemoval(id) => w.works[id].deleting
  }

  function AgentApply(w: World, a: AgentAction): World
    requires AgentEnabled(w, a)
  {
    var work := w.works[a.id];
    match a
    case Consume(id) =>
      w.(works := w.works[id := work.(consumed := Some(Consumed(work.generation, work.spec)))],
         hosted := Objects(work.spec.payload))
    case Report(id, ok) =>
      w.(works := w.works[id := work.(available := Some(Availability(ok, work.consumed.value.generation)))])
    case FinishRemoval(id) =>
      w.(works := w.works - {id},
         hosted := if work.consumed.Some? then Kept(work.consumed.value.spec.deleteOption, w.hosted) else w.hosted,
         removed := Some(w.hosted))
  }

  // ---- main reconciler ---------------------------------------------------------------------------

  /** Cloud and spec may still be changed: nothing was deployed on top of them. */
  predicate Building(w: World, id: string) {
    w.main == Creating && w.cfg.configure && Holds(w, id) && w.works == map[] && !w.hyd.value.iamReady
  }

  /** A work may be written with this payload. */
  predicate MayDeploy(w: World, id: string, payload: seq<Manifest>) {
    && w.main == Creating && Holds(w, id) && w.cfg.override != InfraOnly
    && WellFormed(w.cfg.hostingNamespace, w.cfg.byReference, payload)
    && (w.cfg.configure ==>
          && w.hyd.value.infraReady && w.hyd.value.iamReady
          && w.hyd.value.cluster.Some? && SameIdentity(payload, w.hyd.value.cluster.value))
  }

  /** The managed cluster no longer holds up the teardown. */
  predicate MayTearDown(w: World, id: string) {
    w.main == Destroying && Holds(w, id) && w.hyd.value.deleting && ManagedClusterCleanup !in w.hyd.value.finalizers
  }

  predicate MainEnabled(w: World, a: MainAction) {
    match a
    case BeginMain =>
      && w.main == MainIdle && w.hyd.Some?
      && (w.imp == ImportIdle || (w.hyd.value.deleting && !HasDeprecatedRoles(w.hyd.value.cluster)))
    case EndMain => w.main != MainIdle
    case MigrateRoles => Rewriting(w) && w.hyd.Some? && HasDeprecatedRoles(w.hyd.value.cluster)
    case PersistId(id) =>
      && w.main == Creating && w.hyd.Some? && !w.hyd.value.deleting && !HasDeprecatedRoles(w.hyd.value.cluster)
      && Destroy !in w.hyd.value.finalizers
      && id != "" && (w.hyd.value.infraID == "" || w.hyd.value.infraID == id)
    case TouchStatus => w.main != MainIdle && w.hyd.Some?
    case MarkInfra(ready) =>
      && w.hyd.Some?
      && if ready then Building(w, w.hyd.value.infraID) && CloudOf(w, w.hyd.value.infraID).infra == Full
         else if !w.cfg.configure then w.main != MainIdle
         else (w.main == Creating && w.works == map[] && !w.hyd.value.iamReady)
              || (MayTearDown(w, w.hyd.value.infraID) && w.works == map[])
    case MarkIam(ready) =>
      && w.hyd.Some?
      && if ready then
           && Building(w, w.hyd.value.infraID) && w.hyd.value.infraReady && w.cfg.region != ""
           && var c := CloudOf(w, w.hyd.value.infraID);
              && c.infra == Full && c.iam.FullIam?
              && w.hyd.value.cluster.Some? && CarriesIam(w.hyd.value.cluster.value, c.iam.out)
         else if !w.cfg.configure then w.main != MainIdle
         else (w.main == Creating || MayTearDown(w, w.hyd.value.infraID)) && w.works == map[]
    case CreateInfra(id, stage) => Building(w, id) && (stage == Absent ==> CloudOf(w, id).infra == Absent)
    case RecordInfra(spec, _) => w.hyd.Some? && Building(w, w.hyd.value.infraID) && !HasDeprecatedRoles(Some(spec))
    case CreateIam(id, iam) => Building(w, id) && (iam == NoIam ==> CloudOf(w, id).iam == NoIam)
    case RecordIam(out) =>
      && w.hyd.Some? && Building(w, w.hyd.value.infraID)
      && w.hyd.value.cluster.Some? && w.hyd.value.cluster.value.aws.Some?
      && CloudOf(w, w.hyd.value.infraID).iam == FullIam(out)
    case SetDefaults(_, _) => w.main == Creating && w.hyd.Some? && w.hyd.value.cluster.Some?
    case CreateWork(id, payload) => MayDeploy(w, id, payload) && id !in w.works
    case UpdateWork(id, payload) => MayDeploy(w, id, payload) && id in w.works
    case PatchDeleteOption(id) =>
      && MayTearDown(w, id) && id in w.works && !w.works[id].deleting
      && Wanted(w.cfg) != OrphanAll && w.works[id].spec.deleteOption != Wanted(w.cfg)
    case DeleteWork(id) =>
      && MayTearDown(w, id) && id in w.works && !w.works[id].deleting
      && (Wanted(w.cfg) != OrphanAll ==> w.works[id].spec.deleteOption == Wanted(w.cfg) && UpToDate(w.works[id]))
    case DestroyInfra(id, stage) =>
      && MayTearDown(w, id) && w.works == map[] && w.cfg.configure && w.cfg.override != Orphan
      && (stage == Absent || (stage == Partial && CloudOf(w, id).infra != Absent) || stage == CloudOf(w, id).infra)
    case DestroyIam(id, iam) =>
      && MayTearDown(w, id) && w.works == map[] && w.cfg.configure && w.cfg.override != Orphan
      && CloudOf(w, id).infra == Absent
      && (iam == NoIam || (iam == PartialIam && CloudOf(w, id).iam != NoIam) || iam == CloudOf(w, id).iam)
    case RemoveDestroyFinalizer =>
      && w.hyd.Some? && MayTearDown(w, w.hyd.value.infraID) && w.works == map[]
      && (w.cfg.configure && w.cfg.override != Orphan ==> CloudOf(w, w.hyd.value.infraID) == NOTHING)
  }

  function MainApply(w: World, a: MainAction): World
    requires MainEnabled(w, a)
  {
    match a
    case BeginMain => w.(main := if w.hyd.value.deleting then Destroying else Creating)
    case EndMain => w.(main := MainIdle)
    case MigrateRoles => Write(w, w.hyd.value.(cluster := Some(MigratedSpec(w.hyd.value.cluster.value))))
    case PersistId(id) =>
      Write(w, w.hyd.value.(finalizers := w.hyd.value.finalizers + {Destroy}, infraID := id))
    case TouchStatus => Write(w, w.hyd.value)
    case MarkInfra(ready) => Write(w, w.hyd.value.(infraReady := ready))
    case MarkIam(ready) => Write(w, w.hyd.value.(iamReady := ready))
    case CreateInfra(id, stage) => w.(cloud := w.cloud[id := CloudOf(w, id).(infra := stage)])
    case RecordInfra(spec, pools) => Write(w, w.hyd.value.(cluster := Some(spec), pools := pools))
    case CreateIam(id, iam) => w.(cloud := w.cloud[id := CloudOf(w, id).(iam := iam)])
    case RecordIam(out) => Write(w, w.hyd.value.(cluster := Some(WithIam(w.hyd.value.cluster.value, out))))
    case SetDefaults(clusterID, catalog) =>
      Write(w, w.hyd.value.(cluster := Some(
                                w.hyd.value.cluster.value.(clusterID := clusterID, olmCatalogPlacement := catalog))))
    case CreateWork(id, payload) => w.(works := w.works[id := Work(1, WorkSpec(OrphanAll, payload), false, None, None)])
    case UpdateWork(id, payload) => w.(works := w.works[id := Respecified(w.works[id], w.works[id].spec.(payload := payload))])
    case PatchDeleteOption(id) =>
      w.(works := w.works[id := Respecified(w.works[id], w.works[id].spec.(deleteOption := Wanted(w.cfg)))])
    case DeleteWork(id) => w.(works := w.works[id := w.works[id].(deleting := true)])
    case DestroyInfra(id, stage) => w.(cloud := w.cloud[id := CloudOf(w, id).(infra := stage)])
    case DestroyIam(id, iam) => w.(cloud := w.cloud[id := CloudOf(w, id).(iam := iam)])
    case RemoveDestroyFinalizer => w.(hyd := WithFinalizers(w.hyd.value, w.hyd.value.finalizers - {Destroy}))
  }

  /** The API server bumps the generation when, and only when, the spec changes. */
  function Respecified(work: Work, spec: WorkSpec): Work {
    if spec == work.spec then work else work.(spec := spec, generation := work.generation + 1)
  }

  function WithIam(spec: HostedClusterSpec, out: IamOutput): HostedClusterSpec
    requires spec.aws.Some?
  {
    spec.(issuerURL := out.issuerURL, aws := Some(spec.aws.value.(rolesRef := out.roles)))
  }

  // ---- auto-import reconciler ----------------------------------------------------------------------

  predicate ImportEnabled(w: World, a: ImportAction) {
    match a
    case BeginImport => w.imp == ImportIdle && w.hyd.Some? && !Rewriting(w)
    case EndImport => w.imp != ImportIdle
    case CreateCluster => w.imp == Importing && w.mc.None? && (w.hyd.Some? ==> !SaysFalse(w.hyd.value.createMc))
    case SetImportFinalizer =>
      && w.imp == Importing && w.hyd.Some? && !w.hyd.value.deleting
      && ManagedClusterCleanup !in w.hyd.value.finalizers
    case SetAnnotation => w.imp == Importing && HasFinalizer(w, ManagedClusterCleanup)
    case DetachCluster => w.imp == Detaching && w.mc.Some? && !w.mc.value.deleting
    case RemoveImportFinalizer =>
      && w.imp == Detaching && w.hyd.Some? && w.hyd.value.deleting
      && ManagedClusterCleanup in w.hyd.value.finalizers && ClusterDown(w.mc)
  }

  function ImportApply(w: World, a: ImportAction): World
    requires ImportEnabled(w, a)
  {
    match a
    case BeginImport =>
      w.(imp := if w.hyd.value.deleting then Detaching
                else if SaysFalse(w.hyd.value.createMc) then Skipping
                else Importing)
    case EndImport => w.(imp := ImportIdle)
    case CreateCluster => w.(mc := Some(ManagedCluster(false, false, false)))
    case SetImportFinalizer =>
      Write(w, w.hyd.value.(finalizers := w.hyd.value.finalizers + {ManagedClusterCleanup})).(everImported := true)
    case SetAnnotation => Write(w, w.hyd.value.(createMc := ExactFalse))
    case DetachCluster => w.(mc := Some(w.mc.value.(deleting := true)))
    case RemoveImportFinalizer =>
      w.(hyd := WithFinalizers(w.hyd.value, w.hyd.value.finalizers - {ManagedClusterCleanup}))
  }

  // ---- runs --------------------------------------------------------------------------------------

  predicate Enabled(w: World, a: Action) {
    match a
    case User(u) => UserEnabled(w, u)
    case Controller(c) => ControllerEnabled(w, c)
    case Agent(g) => AgentEnabled(w, g)
    case Main(m) => MainEnabled(w, m)
    case Import(i) => ImportEnabled(w, i)
  }

  function Apply(w: World, a: Action): World
    requires Enabled(w, a)
  {
    match a
    case User(u) => UserApply(w, u)
    case Controller(c) => ControllerApply(w, c)
    case Agent(g) => AgentApply(w, g)
    case Main(m) => MainApply(w, m)
    case Import(i) => ImportApply(w, i)
  }

  /** A fresh deployment, as the user submits it: nothing deployed, no finalizers, no status. */
  predicate Initial(w: World) {
    && w.hyd.Some? && !w.hyd.value.deleting && w.hyd.value.finalizers == {}
    && !w.hyd.value.infraReady && !w.hyd.value.iamReady
    && w.works == map[] && w.cloud == map[] && w.hosted == {}
    && w.main == MainIdle && w.imp == ImportIdle && !w.everImported && w.removed == None
    && (w.cfg.configure ==> !w.cfg.byReference)
  }

  /** Every step of `run` is enabled where it is taken. */
  predicate Legal(w: World, run: seq<Action>)
    decreases |run|
  {
    run == [] || (Enabled(w, run[0]) && Legal(Apply(w, run[0]), run[1..]))
  }

  function After(w: World, run: seq<Action>): World
    requires Legal(w, run)
    decreases |run|
  {
    if run == [] then w else After(Apply(w, run[0]), run[1..])
  }

  lemma {:induction false} RunsCompose(w: World, a: seq<Action>, b: seq<Action>)
    requires Legal(w, a)
    ensures Legal(w, a + b) <==> Legal(After(w, a), b)
    ensures Legal(w, a + b) ==> After(w, a + b) == After(After(w, a), b)
    decreases |a|
  {
    if a == [] {
      assert a + b == b;
    } else {
      assert (a + b)[1..] == a[1..] + b;
      RunsCompose(Apply(w, a[0]), a[1..], b);
    }
  }

  /** A prefix of a run is a run: a reconcile may stop after any of its calls. */
  lemma {:induction false} PrefixesAreRuns(w: World, run: seq<Action>, n: nat)
    requires Legal(w, run) && n <= |run|
    ensures Legal(w, run[..n])
    decreases n
  {
    if n > 0 {
      assert run[..n][1..] == run[1..][..n - 1];
      PrefixesAreRuns(Apply(w, run[0]), run[1..], n - 1);
    }
  }
}
