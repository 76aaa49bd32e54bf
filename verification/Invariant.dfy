/**
 What every step of every actor keeps. The invariant is a conjunction of small predicates; each actor
 has its own preservation lemma, and the last lemma lifts them to runs.
 */
module Invariant {
  import opened Wrappers
  import opened Payload
  import opened Lifecycle
  import opened RoleMigration

  predicate Exists(c: Cloud) {
    c != NOTHING
  }

  /** Under ORPHAN, cloud resources may outlive the deployment's hold on them. */
  predicate Released(w: World) {
    w.cfg.override == Orphan && (w.hyd.None? || (w.hyd.value.deleting && Destroy !in w.hyd.value.finalizers))
  }

  /** No cloud resource, not even a partial one, without the destroy finalizer and under the recorded id. */
  predicate CloudIsHeld(w: World) {
    forall id | id in w.cloud && Exists(w.cloud[id]) :: w.cfg.configure && (Holds(w, id) || Released(w))
  }

  predicate IdIsRecorded(w: World) {
    HasFinalizer(w, Destroy) ==> w.hyd.value.infraID != ""
  }

  /** The deprecated role list is migrated before anything is built. */
  predicate RolesAreMigrated(w: World) {
    HasFinalizer(w, Destroy) ==> !HasDeprecatedRoles(w.hyd.value.cluster)
  }

  /** An object that is deleting is there because a finalizer holds it. */
  predicate DeletionIsHeld(w: World) {
    w.hyd.Some? && w.hyd.value.deleting ==> w.hyd.value.finalizers != {}
  }

  /** The pass in flight may still create: the deployment is live, or was when the pass read it. */
  predicate InCreation(w: World) {
    w.hyd.Some? && (!w.hyd.value.deleting || w.main == Creating)
  }

  /** Infrastructure and IAM are complete, and the stored spec carries the IAM run's output. */
  predicate GateOpen(w: World) {
    && w.hyd.Some? && Holds(w, w.hyd.value.infraID) && w.hyd.value.infraReady && w.hyd.value.iamReady
    && w.cfg.region != ""
    && var c := CloudOf(w, w.hyd.value.infraID);
       c.infra == Full && c.iam.FullIam? && w.hyd.value.cluster.Some? && CarriesIam(w.hyd.value.cluster.value, c.iam.out)
  }

  predicate GateIsHonest(w: World) {
    && (w.cfg.configure && InCreation(w) && w.hyd.value.iamReady ==> GateOpen(w))
    && (w.cfg.configure && w.works != map[] ==> GateOpen(w))
    && (!w.cfg.configure && w.hyd.Some? ==> !w.hyd.value.infraReady && !w.hyd.value.iamReady)
  }

  /** A stored payload is well formed and, when the controller built the cluster, carries its identity. */
  predicate PayloadIsGood(w: World, payload: seq<Manifest>) {
    && WellFormed(w.cfg.hostingNamespace, w.cfg.byReference, payload)
    && (w.cfg.configure && w.hyd.Some? && w.hyd.value.cluster.Some? ==> SameIdentity(payload, w.hyd.value.cluster.value))
  }

  /** The agent never runs ahead of the stored generations, and reports only what it consumed. */
  predicate AgentIsHonest(work: Work) {
    && (work.consumed.Some? ==>
          && work.consumed.value.generation <= work.generation
          && (work.consumed.value.generation == work.generation ==> work.consumed.value.spec == work.spec))
    && (work.available.Some? ==>
          work.consumed.Some? && work.available.value.observedGeneration <= work.consumed.value.generation)
  }

  /** The deployment is deleting, and no pass that read it before is still running. */
  predicate Settled(w: World) {
    w.hyd.Some? && w.hyd.value.deleting && w.main != Creating
  }

  /** Orphan until deletion has settled; afterwards Orphan or what the override calls for. */
  predicate OptionAllowed(w: World, option: DeleteOption) {
    option == OrphanAll || (Settled(w) && option == Wanted(w.cfg))
  }

  /** A work is only ever deleted in order, and by an agent that knows how. */
  predicate DeletedInOrder(w: World, work: Work) {
    work.deleting ==>
      && Settled(w) && !HasFinalizer(w, ManagedClusterCleanup)
      && (Wanted(w.cfg) != OrphanAll ==> work.spec.deleteOption == Wanted(w.cfg) && UpToDate(work))
  }

  /** Everything that holds of a stored work, under whatever name it is stored. */
  predicate WorkIsGood(w: World, id: string, work: Work) {
    && Holds(w, id) && w.cfg.override != InfraOnly
    && PayloadIsGood(w, work.spec.payload)
    && AgentIsHonest(work)
    && OptionAllowed(w, work.spec.deleteOption)
    && (work.consumed.Some? ==> OptionAllowed(w, work.consumed.value.spec.deleteOption))
    && DeletedInOrder(w, work)
    && w.hosted == (if work.consumed.Some? then Objects(work.consumed.value.spec.payload) else {})
  }

  predicate WorksAreGood(w: World) {
    forall id | id in w.works :: WorkIsGood(w, id, w.works[id])
  }

  /** Once imported, the finalizer is only given up when the managed cluster is down, for good. */
  predicate ImportIsOrderly(w: World) {
    && (HasFinalizer(w, ManagedClusterCleanup) ==> w.everImported)
    && (w.everImported && !HasFinalizer(w, ManagedClusterCleanup) ==>
          (w.hyd.Some? ==> w.hyd.value.deleting) && w.imp != Importing && ClusterDown(w.mc))
  }

  predicate PassesAreOrderly(w: World) {
    && (w.main == Destroying && w.hyd.Some? ==> w.hyd.value.deleting)
    && (w.imp == Detaching && w.hyd.Some? ==> w.hyd.value.deleting)
    && (Rewriting(w) ==> w.imp == ImportIdle)
  }

  /** The hosting cluster holds what the agent applied, or what the last removal left. */
  predicate HostedIsOrderly(w: World) {
    && (w.removed.Some? ==>
          && w.works == map[] && (w.hyd.Some? ==> Settled(w))
          && w.hosted == Kept(Wanted(w.cfg), w.removed.value))
    && (w.removed.None? && w.works == map[] ==> w.hosted == {})
  }

  /** The part that does not speak of the managed cluster and of import passes. */
  predicate Core(w: World) {
    && CloudIsHeld(w)
    && IdIsRecorded(w)
    && RolesAreMigrated(w)
    && DeletionIsHeld(w)
    && GateIsHonest(w)
    && WorksAreGood(w)
    && HostedIsOrderly(w)
  }

  predicate Inv(w: World) {
    Core(w) && ImportIsOrderly(w) && PassesAreOrderly(w)
  }

  lemma InitialInv(w: World)
    requires Initial(w)
    ensures Inv(w)
  {
  }

  // ---- what large parts of the invariant do not depend on -------------------------------------------

  lemma CoreIgnoresCluster(w: World, mc: Option<ManagedCluster>, imp: ImportPass)
    requires Core(w)
    ensures Core(w.(mc := mc, imp := imp))
  {
    var v := w.(mc := mc, imp := imp);
    forall id | id in v.works ensures WorkIsGood(v, id, v.works[id]) {
      assert WorkIsGood(w, id, w.works[id]);
    }
  }

  /** A rewrite of the stored deployment that leaves hold, gates and identity alone. */
  predicate QuietRewrite(h: Hyd, k: Hyd) {
    && k.deleting == h.deleting && k.finalizers == h.finalizers && k.infraID == h.infraID
    && k.infraReady == h.infraReady && k.iamReady == h.iamReady
    && KeepsIdentity(h.cluster, k.cluster) && (HasDeprecatedRoles(k.cluster) ==> HasDeprecatedRoles(h.cluster))
  }

  lemma CoreKeepsQuietRewrite(w: World, k: Hyd)
    requires Core(w) && w.hyd.Some? && QuietRewrite(w.hyd.value, k)
    ensures Core(w.(hyd := Some(k)))
  {
    var v := w.(hyd := Some(k));
    forall id | id in v.works ensures WorkIsGood(v, id, v.works[id]) {
      assert WorkIsGood(w, id, w.works[id]);
    }
  }

  /** While a deployment is held, its infra id is the only name a work can have. */
  lemma OnlyThisWork(w: World, id: string)
    requires WorksAreGood(w) && Holds(w, id)
    ensures forall k | k in w.works :: k == id
  {
    forall k | k in w.works ensures k == id {
      assert WorkIsGood(w, k, w.works[k]);
    }
  }

  /** Storing a good work under the recorded id. */
  lemma CoreKeepsWork(w: World, id: string, work: Work, hosted: set<Manifest>)
    requires Core(w) && Holds(w, id) && w.removed == None && (w.cfg.configure ==> GateOpen(w))
    requires WorkIsGood(w.(works := w.works[id := work], hosted := hosted), id, work)
    ensures Core(w.(works := w.works[id := work], hosted := hosted))
  {
    var v := w.(works := w.works[id := work], hosted := hosted);
    OnlyThisWork(w, id);
    assert id in v.works && forall k | k in v.works :: k == id;
  }

  // ---- the world outside this repository -----------------------------------------------------------

  lemma UserKeepsInv(w: World, a: UserAction)
    requires Inv(w) && UserEnabled(w, a)
    ensures Inv(UserApply(w, a))
  {
    var v := UserApply(w, a);
    if a.DeleteCluster? {
      CoreIgnoresCluster(w, v.mc, v.imp);
    } else if a.EditSpec? {
      CoreKeepsQuietRewrite(w, v.hyd.value);
    } else {
      DeletionKeepsInv(w);
    }
  }

  lemma DeletionKeepsInv(w: World)
    requires Inv(w) && UserEnabled(w, DeleteDeployment)
    ensures Inv(UserApply(w, DeleteDeployment))
  {
  }

  lemma ControllerKeepsInv(w: World, a: ControllerAction)
    requires Inv(w) && ControllerEnabled(w, a)
    ensures Inv(ControllerApply(w, a))
  {
    CoreIgnoresCluster(w, ControllerApply(w, a).mc, w.imp);
  }

  lemma RemovalKeepsInv(w: World, a: AgentAction)
    requires Inv(w) && AgentEnabled(w, a) && a.FinishRemoval?
    ensures Inv(AgentApply(w, a))
  {
    assert forall id | id in w.works :: WorkIsGood(w, id, w.works[id]) && id == a.id;
    assert AgentApply(w, a).works == map[];
  }

  lemma UpdatesKeepInv(w: World, a: AgentAction)
    requires Inv(w) && AgentEnabled(w, a) && !a.FinishRemoval?
    ensures Inv(AgentApply(w, a))
  {
    assert WorkIsGood(w, a.id, w.works[a.id]);
    CoreKeepsWork(w, a.id, AgentApply(w, a).works[a.id], AgentApply(w, a).hosted);
  }

  lemma AgentKeepsInv(w: World, a: AgentAction)
    requires Inv(w) && AgentEnabled(w, a)
    ensures Inv(AgentApply(w, a))
  {
    if a.FinishRemoval? {
      RemovalKeepsInv(w, a);
    } else {
      UpdatesKeepInv(w, a);
    }
  }

  lemma AnnotationKeepsInv(w: World)
    requires Inv(w) && ImportEnabled(w, SetAnnotation)
    ensures Inv(ImportApply(w, SetAnnotation))
  {
    CoreKeepsQuietRewrite(w, ImportApply(w, SetAnnotation).hyd.value);
  }

  lemma ImportMarkKeepsInv(w: World)
    requires Inv(w) && ImportEnabled(w, SetImportFinalizer)
    ensures Inv(ImportApply(w, SetImportFinalizer))
  {
  }

  lemma ImportReleaseKeepsInv(w: World, a: ImportAction)
    requires Inv(w) && ImportEnabled(w, a) && a.RemoveImportFinalizer?
    ensures Inv(ImportApply(w, a))
  {
    if Destroy in w.hyd.value.finalizers {
      assert Destroy in w.hyd.value.finalizers - {ManagedClusterCleanup};
    }
  }

  lemma ImportPassesKeepInv(w: World, a: ImportAction)
    requires Inv(w) && ImportEnabled(w, a)
    requires a.BeginImport? || a.EndImport? || a.CreateCluster? || a.DetachCluster?
    ensures Inv(ImportApply(w, a))
  {
    CoreIgnoresCluster(w, ImportApply(w, a).mc, ImportApply(w, a).imp);
  }

  lemma ImportKeepsInv(w: World, a: ImportAction)
    requires Inv(w) && ImportEnabled(w, a)
    ensures Inv(ImportApply(w, a))
  {
    if a.SetAnnotation? {
      AnnotationKeepsInv(w);
    } else if a.SetImportFinalizer? {
      ImportMarkKeepsInv(w);
    } else if a.RemoveImportFinalizer? {
      ImportReleaseKeepsInv(w, a);
    } else {
      ImportPassesKeepInv(w, a);
    }
  }

  lemma BeginKeepsInv(w: World)
    requires Inv(w) && MainEnabled(w, BeginMain)
    ensures Inv(MainApply(w, BeginMain))
  {
  }

  lemma EndKeepsInv(w: World)
    requires Inv(w) && MainEnabled(w, EndMain)
    ensures Inv(MainApply(w, EndMain))
  {
  }

  lemma PersistKeepsInv(w: World, a: MainAction)
    requires Inv(w) && MainEnabled(w, a) && a.PersistId?
    ensures Inv(MainApply(w, a))
  {
  }

  lemma MigrationKeepsInv(w: World, a: MainAction)
    requires Inv(w) && MainEnabled(w, a) && a.MigrateRoles?
    ensures Inv(MainApply(w, a))
  {
  }

  lemma QuietWritesKeepInv(w: World, a: MainAction)
    requires Inv(w) && MainEnabled(w, a)
    requires a.TouchStatus? || a.SetDefaults?
    ensures Inv(MainApply(w, a))
  {
    CoreKeepsQuietRewrite(w, MainApply(w, a).hyd.value);
  }

  lemma GateWritesKeepInv(w: World, a: MainAction)
    requires Inv(w) && MainEnabled(w, a) && (a.MarkInfra? || a.MarkIam?)
    ensures Inv(MainApply(w, a))
  {
  }

  lemma SpecWritesKeepInv(w: World, a: MainAction)
    requires Inv(w) && MainEnabled(w, a) && (a.RecordInfra? || a.RecordIam?)
    ensures Inv(MainApply(w, a))
  {
  }

  lemma CloudCallsKeepInv(w: World, a: MainAction)
    requires Inv(w) && MainEnabled(w, a)
    requires a.CreateInfra? || a.CreateIam? || a.DestroyInfra? || a.DestroyIam?
    ensures Inv(MainApply(w, a))
  {
  }

  lemma DeployKeepsInv(w: World, a: MainAction)
    requires Inv(w) && MainEnabled(w, a)
    requires a.CreateWork? || a.UpdateWork?
    ensures Inv(MainApply(w, a))
  {
    if a.id in w.works {
      assert WorkIsGood(w, a.id, w.works[a.id]);
    } else {
      OnlyThisWork(w, a.id);
    }
    CoreKeepsWork(w, a.id, MainApply(w, a).works[a.id], w.hosted);
  }

  lemma WorkTeardownKeepsInv(w: World, a: MainAction)
    requires Inv(w) && MainEnabled(w, a)
    requires a.PatchDeleteOption? || a.DeleteWork?
    ensures Inv(MainApply(w, a))
  {
    assert WorkIsGood(w, a.id, w.works[a.id]);
    CoreKeepsWork(w, a.id, MainApply(w, a).works[a.id], w.hosted);
  }

  lemma ReleaseKeepsInv(w: World, a: MainAction)
    requires Inv(w) && MainEnabled(w, a) && a.RemoveDestroyFinalizer?
    ensures Inv(MainApply(w, a))
  {
  }

  lemma MainKeepsInv(w: World, a: MainAction)
    requires Inv(w) && MainEnabled(w, a)
    ensures Inv(MainApply(w, a))
  {
    if a.BeginMain? {
      BeginKeepsInv(w);
    } else if a.EndMain? {
      EndKeepsInv(w);
    } else if a.PersistId? {
      PersistKeepsInv(w, a);
    } else if a.MigrateRoles? {
      MigrationKeepsInv(w, a);
    } else if a.TouchStatus? || a.SetDefaults? {
      QuietWritesKeepInv(w, a);
    } else if a.MarkInfra? || a.MarkIam? {
      GateWritesKeepInv(w, a);
    } else if a.RecordInfra? || a.RecordIam? {
      SpecWritesKeepInv(w, a);
    } else if a.CreateInfra? || a.CreateIam? || a.DestroyInfra? || a.DestroyIam? {
      CloudCallsKeepInv(w, a);
    } else if a.CreateWork? || a.UpdateWork? {
      DeployKeepsInv(w, a);
    } else if a.PatchDeleteOption? || a.DeleteWork? {
      WorkTeardownKeepsInv(w, a);
    } else {
      ReleaseKeepsInv(w, a);
    }
  }

  lemma StepKeepsInv(w: World, a: Action)
    requires Inv(w) && Enabled(w, a)
    ensures Inv(Apply(w, a))
  {
    match a
    case User(u) => UserKeepsInv(w, u);
    case Controller(c) => ControllerKeepsInv(w, c);
    case Agent(g) => AgentKeepsInv(w, g);
    case Main(m) => MainKeepsInv(w, m);
    case Import(i) => ImportKeepsInv(w, i);
  }

  /** The invariant holds in every reachable state. */
  lemma {:induction false} RunsKeepInv(w: World, run: seq<Action>)
    requires Inv(w) && Legal(w, run)
    ensures Inv(After(w, run))
    decreases |run|
  {
    if run != [] {
      StepKeepsInv(w, run[0]);
      RunsKeepInv(Apply(w, run[0]), run[1..]);
    }
  }
}
