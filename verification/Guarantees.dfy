/**
 What the lifecycle guarantees over whole runs. Every theorem speaks of an arbitrary run from an
 arbitrary fresh deployment, or from an arbitrary state that satisfies the invariant; since prefixes
 of runs are runs, "after the run" means "in every state of every run".
 */
module Guarantees {
  import opened Wrappers
  import opened Payload
  import opened PayloadContents
  import opened Lifecycle
  import opened Invariant

  lemma ReachableInv(w0: World, run: seq<Action>)
    requires Initial(w0) && Legal(w0, run)
    ensures Inv(After(w0, run))
  {
    InitialInv(w0);
    RunsKeepInv(w0, run);
  }

  // ---- no leak -----------------------------------------------------------------------------------

  /**
   Unless the user asked to orphan them, cloud resources, even partial ones, only exist while the
   deployment exists with its destroy finalizer, and only under the infra id stored in it; whatever the
   override, this holds until deletion starts.
   */
  lemma NoCloudLeak(w0: World, run: seq<Action>, id: string)
    requires Initial(w0) && Legal(w0, run)
    ensures var w := After(w0, run);
            id in w.cloud && w.cloud[id] != Cloud(Absent, NoIam) ==>
              && w.cfg.configure
              && (w.cfg.override != Orphan || (w.hyd.Some? && !w.hyd.value.deleting) ==>
                    w.hyd.Some? && Destroy in w.hyd.value.finalizers && w.hyd.value.infraID == id)
  {
    ReachableInv(w0, run);
    CfgIsFixed(w0, run);
  }

  lemma {:induction false} CfgIsFixed(w: World, run: seq<Action>)
    requires Legal(w, run)
    ensures After(w, run).cfg == w.cfg
    decreases |run|
  {
    if run != [] {
      CfgIsFixed(Apply(w, run[0]), run[1..]);
    }
  }

  lemma ImportKeepsDestroy(w: World, a: ImportAction)
    requires ImportEnabled(w, a)
    ensures HasFinalizer(ImportApply(w, a), Destroy) == HasFinalizer(w, Destroy)
    ensures HasFinalizer(w, Destroy) ==> ImportApply(w, a).hyd.value.infraID == w.hyd.value.infraID
  {
    if HasFinalizer(w, Destroy) {
      assert Destroy in w.hyd.value.finalizers - {ManagedClusterCleanup};
    }
  }

  lemma OnlyReleaseDropsDestroyInMain(w: World, a: MainAction)
    requires MainEnabled(w, a) && HasFinalizer(w, Destroy) && !a.RemoveDestroyFinalizer?
    ensures HasFinalizer(MainApply(w, a), Destroy)
  {
  }

  lemma OnlyReleaseDropsDestroy(w: World, a: Action)
    requires Enabled(w, a) && HasFinalizer(w, Destroy) && !HasFinalizer(Apply(w, a), Destroy)
    ensures a == Main(RemoveDestroyFinalizer)
  {
    if a.Import? {
      ImportKeepsDestroy(w, a.imp);
    } else if a.Main? && !a.main.RemoveDestroyFinalizer? {
      OnlyReleaseDropsDestroyInMain(w, a.main);
    }
  }

  /** The destroy finalizer is dropped only when no work and, unless orphaning, no cloud resource is left anywhere. */
  lemma FinalizerDropsLast(w0: World, run: seq<Action>, a: Action)
    requires Initial(w0) && Legal(w0, run) && Enabled(After(w0, run), a)
    ensures var w, v := After(w0, run), Apply(After(w0, run), a);
            HasFinalizer(w, Destroy) && !HasFinalizer(v, Destroy) ==>
              && w.works == map[]
              && (w.cfg.override != Orphan ==> forall id | id in w.cloud :: w.cloud[id] == Cloud(Absent, NoIam))
              && (w.everImported ==> w.mc.None? || (w.mc.value.deleting && !w.mc.value.workFinalizer))
  {
    ReachableInv(w0, run);
    var w, v := After(w0, run), Apply(After(w0, run), a);
    if HasFinalizer(w, Destroy) && !HasFinalizer(v, Destroy) {
      OnlyReleaseDropsDestroy(w, a);
    }
  }

  /**
   What the removal of the work leaves on the hosting cluster, out of what was there: everything, nothing,
   or, by default, just the hosting namespace.
   */
  lemma WhatIsLeftBehind(w0: World, run: seq<Action>)
    requires Initial(w0) && Legal(w0, run)
    requires After(w0, run).hyd.None? && After(w0, run).removed.Some?
    ensures var w := After(w0, run);
            match w.cfg.override
            case Orphan => w.hosted == w.removed.value
            case DeleteHostingNamespace => w.hosted == {}
            case _ => w.hosted == w.removed.value * {Namespace(w.cfg.hostingNamespace)}
  {
    ReachableInv(w0, run);
  }

  /**
   A deployment that is gone leaves behind exactly what its override says, in the cloud and on the hosting
   cluster. A managed cluster that was marked with the finalizer is down; and unless an import pass is
   still in flight, no managed cluster appears any more.
   */
  lemma CleanExit(w0: World, run: seq<Action>)
    requires Initial(w0) && Legal(w0, run)
    ensures var w := After(w0, run);
            w.hyd.None? ==>
              && w.works == map[]
              && (w.cfg.override != Orphan ==> forall id | id in w.cloud :: w.cloud[id] == Cloud(Absent, NoIam))
              && (w.everImported ==> w.mc.None? || (w.mc.value.deleting && !w.mc.value.workFinalizer))
              && (w.removed.None? ==> w.hosted == {})
              && (w.removed.Some? ==>
                    match w.cfg.override
                    case Orphan => w.hosted == w.removed.value
                    case DeleteHostingNamespace => w.hosted == {}
                    case _ => w.hosted == w.removed.value * {Namespace(w.cfg.hostingNamespace)})
              && (w.imp != Importing && w.mc.None? ==> forall more | Legal(w, more) :: After(w, more).mc.None?)
  {
    ReachableInv(w0, run);
    var w := After(w0, run);
    if w.hyd.None? && w.removed.Some? {
      WhatIsLeftBehind(w0, run);
    }
    if w.hyd.None? && w.imp != Importing && w.mc.None? {
      forall more | Legal(w, more) ensures After(w, more).mc.None? {
        DetachedStaysDetached(w, more);
      }
    }
  }

  // ---- order of the teardown -----------------------------------------------------------------------

  /**
   A ManifestWork starts to be deleted only after the managed cluster is down, if there ever was an
   import, and, unless the override orphans everything, only after the agent has applied the work
   with the delete option the override calls for.
   */
  lemma WorkDeletionIsOrderly(w0: World, run: seq<Action>, id: string)
    requires Initial(w0) && Legal(w0, run)
    requires var w := After(w0, run); id in w.works && w.works[id].deleting
    ensures var w := After(w0, run);
            && (w.everImported ==> w.mc.None? || (w.mc.value.deleting && !w.mc.value.workFinalizer))
            && (w.cfg.override != Orphan ==> w.works[id].consumed.Some?)
            && (w.works[id].consumed.Some? ==>
                  var option := w.works[id].consumed.value.spec.deleteOption;
                  match w.cfg.override
                  case NoOverride => option == SelectivelyOrphan(w.cfg.hostingNamespace)
                  case DeleteHostingNamespace => option == Foreground
                  case Orphan => option == OrphanAll
                  case InfraOnly => false)
  {
    ReachableInv(w0, run);
    assert WorkIsGood(After(w0, run), id, After(w0, run).works[id]);
  }

  /** Once imported, the finalizer is only ever missing with the managed cluster gone, or going with its own works cleaned up. */
  lemma UnmarkedMeansDown(w0: World, run: seq<Action>)
    requires Initial(w0) && Legal(w0, run)
    requires After(w0, run).everImported && !HasFinalizer(After(w0, run), ManagedClusterCleanup)
    ensures var mc := After(w0, run).mc; mc.None? || (mc.value.deleting && !mc.value.workFinalizer)
  {
    ReachableInv(w0, run);
  }

  lemma WorksMeanDeploying(w: World)
    requires WorksAreGood(w)
    ensures w.works != map[] ==> w.cfg.override != InfraOnly
  {
    if id :| id in w.works {
      assert WorkIsGood(w, id, w.works[id]);
    }
  }

  lemma {:induction false} NothingIsRemoved(w: World, run: seq<Action>)
    requires Inv(w) && Legal(w, run) && w.cfg.override == InfraOnly && w.removed == None
    ensures After(w, run).removed == None
    decreases |run|
  {
    if run != [] {
      WorksMeanDeploying(w);
      StepKeepsInv(w, run[0]);
      NothingIsRemoved(Apply(w, run[0]), run[1..]);
    }
  }

  /** INFRA-ONLY: nothing is ever deployed. */
  lemma InfraOnlyNeverDeploys(w0: World, run: seq<Action>)
    requires Initial(w0) && Legal(w0, run) && w0.cfg.override == InfraOnly
    ensures After(w0, run).works == map[] && After(w0, run).hosted == {}
  {
    InitialInv(w0);
    ReachableInv(w0, run);
    CfgIsFixed(w0, run);
    NothingIsRemoved(w0, run);
    WorksMeanDeploying(After(w0, run));
  }

  /** The deployment is deleting or gone, and the main pass in flight, if there is one, knows it. */
  predicate NoCreation(w: World) {
    w.main != Creating && (w.hyd.Some? ==> w.hyd.value.deleting)
  }

  lemma OrphanMainStep(w: World, a: MainAction)
    requires MainEnabled(w, a) && NoCreation(w) && w.cfg.override == Orphan
    ensures NoCreation(MainApply(w, a)) && MainApply(w, a).cloud == w.cloud
  {
  }

  lemma OrphanOtherStep(w: World, a: Action)
    requires Enabled(w, a) && NoCreation(w) && !a.Main?
    ensures NoCreation(Apply(w, a)) && Apply(w, a).cloud == w.cloud
  {
  }

  /** ORPHAN: a teardown leaves the cloud as it is. */
  lemma {:induction false} OrphanKeepsCloud(w: World, run: seq<Action>)
    requires Legal(w, run) && NoCreation(w) && w.cfg.override == Orphan
    ensures After(w, run).cloud == w.cloud
    decreases |run|
  {
    if run != [] {
      if run[0].Main? {
        OrphanMainStep(w, run[0].main);
      } else {
        OrphanOtherStep(w, run[0]);
      }
      OrphanKeepsCloud(Apply(w, run[0]), run[1..]);
    }
  }

  predicate SettledOrGone(w: World) {
    w.hyd.None? || Settled(w)
  }

  lemma MainStaysSettled(w: World, a: MainAction)
    requires MainEnabled(w, a) && SettledOrGone(w)
    ensures SettledOrGone(MainApply(w, a))
    ensures w.hyd.None? ==> MainApply(w, a).hyd.None?
  {
  }

  /** Deletion is permanent: once settled, the deployment stays deleting until it is gone for good. */
  lemma SettledStays(w: World, a: Action)
    requires Enabled(w, a) && SettledOrGone(w)
    ensures SettledOrGone(Apply(w, a))
    ensures w.hyd.None? ==> Apply(w, a).hyd.None?
  {
    if a.Main? {
      MainStaysSettled(w, a.main);
    }
  }

  /** Nothing comes back, and the cloud is only touched in its turn. */
  predicate ShrinksInOrder(w: World, v: World, id: string) {
    && v.works.Keys <= w.works.Keys
    && (CloudOf(v, id).infra != CloudOf(w, id).infra ==> w.works == map[])
    && (CloudOf(v, id).iam != CloudOf(w, id).iam ==> w.works == map[] && CloudOf(w, id).infra == Absent)
    && (CloudOf(w, id).infra == Absent ==> CloudOf(v, id).infra == Absent)
    && (CloudOf(w, id).iam == NoIam ==> CloudOf(v, id).iam == NoIam)
  }

  lemma TeardownMainStepInOrder(w: World, a: MainAction, id: string)
    requires MainEnabled(w, a) && w.main != Creating
    ensures ShrinksInOrder(w, MainApply(w, a), id)
  {
  }

  /**
   In a settled teardown cloud resources only shrink in order: works first, then infrastructure, then
   IAM; and no work comes back.
   */
  lemma TeardownStepsInOrder(w: World, a: Action, id: string)
    requires Enabled(w, a) && Settled(w)
    ensures ShrinksInOrder(w, Apply(w, a), id)
  {
    if a.Main? {
      TeardownMainStepInOrder(w, a.main, id);
    }
  }

  /** Over a whole settled teardown: no work comes back and no cloud resource comes back. */
  lemma {:induction false} NothingComesBack(w: World, run: seq<Action>, id: string)
    requires Inv(w) && Legal(w, run) && SettledOrGone(w)
    ensures var v := After(w, run);
            && v.works.Keys <= w.works.Keys
            && (CloudOf(w, id).infra == Absent ==> CloudOf(v, id).infra == Absent)
            && (CloudOf(w, id).iam == NoIam ==> CloudOf(v, id).iam == NoIam)
    decreases |run|
  {
    if run != [] {
      StepKeepsInv(w, run[0]);
      SettledStays(w, run[0]);
      if w.hyd.Some? {
        TeardownStepsInOrder(w, run[0], id);
      } else {
        GoneIsQuiet(w, run[0]);
      }
      NothingComesBack(Apply(w, run[0]), run[1..], id);
    }
  }

  /** After the deployment is gone neither reconciler touches works or cloud again. */
  lemma GoneIsQuiet(w: World, a: Action)
    requires Enabled(w, a) && w.hyd.None? && w.works == map[]
    ensures var v := Apply(w, a); v.works == w.works && v.cloud == w.cloud && v.hosted == w.hosted
  {
  }

  // ---- delete option and payload --------------------------------------------------------------------

  /** Until deletion starts, every stored work orphans its objects. */
  lemma OrphanUntilDeletion(w0: World, run: seq<Action>, id: string)
    requires Initial(w0) && Legal(w0, run)
    requires var w := After(w0, run); id in w.works && w.hyd.Some? && !w.hyd.value.deleting
    ensures After(w0, run).works[id].spec.deleteOption == OrphanAll
    ensures var work := After(w0, run).works[id];
            work.consumed.Some? ==> work.consumed.value.spec.deleteOption == OrphanAll
  {
    ReachableInv(w0, run);
    assert WorkIsGood(After(w0, run), id, After(w0, run).works[id]);
  }

  /** 1 while the delete option still has to be patched. */
  function PendingPatch(w: World, id: string): nat
    requires id in w.works
  {
    if Wanted(w.cfg) != OrphanAll && w.works[id].spec.deleteOption != Wanted(w.cfg) then 1 else 0
  }

  /** The payload stays, and a generation is only spent on the pending patch. */
  predicate AtMostThePatch(w: World, v: World, id: string)
    requires id in w.works && id in v.works
  {
    && v.works[id].spec.payload == w.works[id].spec.payload
    && w.works[id].generation <= v.works[id].generation
    && v.works[id].generation + PendingPatch(v, id) <= w.works[id].generation + PendingPatch(w, id)
  }

  lemma SettledMainStepOnWork(w: World, a: MainAction, id: string)
    requires MainEnabled(w, a) && w.main != Creating
    requires id in w.works && id in MainApply(w, a).works
    ensures AtMostThePatch(w, MainApply(w, a), id)
  {
  }

  lemma SettledStepOnWork(w: World, a: Action, id: string)
    requires Enabled(w, a) && Settled(w)
    requires id in w.works && id in Apply(w, a).works
    ensures AtMostThePatch(w, Apply(w, a), id)
  {
    if a.Main? {
      SettledMainStepOnWork(w, a.main, id);
    }
  }

  /** After deletion has settled the payload never changes and the generation is bumped at most once. */
  lemma {:induction false} OneBumpAfterDeletion(w: World, run: seq<Action>, id: string)
    requires Inv(w) && Settled(w) && Legal(w, run)
    requires id in w.works && id in After(w, run).works
    ensures var v := After(w, run);
            && v.works[id].spec.payload == w.works[id].spec.payload
            && w.works[id].generation <= v.works[id].generation
            && v.works[id].generation + PendingPatch(v, id) <= w.works[id].generation + PendingPatch(w, id)
            && v.works[id].generation <= w.works[id].generation + 1
    decreases |run|
  {
    if run != [] {
      var v := Apply(w, run[0]);
      StepKeepsInv(w, run[0]);
      SettledStays(w, run[0]);
      NothingComesBack(v, run[1..], id);
      RunsKeepInv(v, run[1..]);
      assert id in v.works;
      assert WorkIsGood(v, id, v.works[id]);
      SettledStepOnWork(w, run[0], id);
      OneBumpAfterDeletion(v, run[1..], id);
    }
  }

  lemma MainPayloadStep(w: World, a: MainAction, id: string)
    requires MainEnabled(w, a) && id in w.works && id in MainApply(w, a).works
    ensures MainApply(w, a).works[id].spec.payload != w.works[id].spec.payload ==>
              a == UpdateWork(id, MainApply(w, a).works[id].spec.payload)
  {
  }

  lemma PayloadStep(w: World, a: Action, id: string)
    requires Enabled(w, a) && id in w.works && id in Apply(w, a).works
    ensures Apply(w, a).works[id].spec.payload != w.works[id].spec.payload ==>
              a == Main(UpdateWork(id, Apply(w, a).works[id].spec.payload))
  {
    if a.Main? {
      MainPayloadStep(w, a.main, id);
    }
  }

  /**
   The exact limit of that promise. While a deployment is deleting, some step can still turn a work's
   payload into another if and only if that payload passes the guard of a creating pass, and so only if
   a pass that read the deployment alive is still in flight.
   */
  lemma LateWriteOnlyFromRunningPass(w: World, id: string, payload: seq<Manifest>)
    requires w.hyd.Some? && w.hyd.value.deleting && id in w.works && payload != w.works[id].spec.payload
    ensures (exists a :: Enabled(w, a) && id in Apply(w, a).works && Apply(w, a).works[id].spec.payload == payload)
       <==> MayDeploy(w, id, payload)
    ensures MayDeploy(w, id, payload) ==> w.main == Creating
  {
    if a :| Enabled(w, a) && id in Apply(w, a).works && Apply(w, a).works[id].spec.payload == payload {
      PayloadStep(w, a, id);
    }
    if MayDeploy(w, id, payload) {
      assert Enabled(w, Main(UpdateWork(id, payload)));
    }
  }

  // ---- creation gate -------------------------------------------------------------------------------

  /**
   When the controller configures the platform, a ManifestWork exists only on top of complete
   infrastructure and IAM, and both the stored spec and the hosted cluster manifest inside the work
   carry the issuer URL and the seven role ARNs of that IAM run.
   */
  lemma CreationGate(w0: World, run: seq<Action>, id: string)
    requires Initial(w0) && Legal(w0, run)
    requires id in After(w0, run).works && w0.cfg.configure
    ensures var w := After(w0, run);
            && id in w.cloud && w.cloud[id].infra == Full && w.cloud[id].iam.FullIam?
            && w.hyd.Some? && w.hyd.value.infraID == id && w.hyd.value.cluster.Some?
            && var out, payload := w.cloud[id].iam.out, w.works[id].spec.payload;
               && |payload| >= 2 && payload[1].HostedClusterObj?
               && var stored, deployed := w.hyd.value.cluster.value, payload[1].spec;
                  && stored.issuerURL == out.issuerURL && stored.aws.Some? && stored.aws.value.rolesRef == out.roles
                  && deployed.issuerURL == out.issuerURL && deployed.aws.Some? && deployed.aws.value.rolesRef == out.roles
  {
    ReachableInv(w0, run);
    CfgIsFixed(w0, run);
    assert WorkIsGood(After(w0, run), id, After(w0, run).works[id]);
  }

  /** Every stored payload is well formed, in the deployment's own hosting namespace. */
  lemma StoredPayloadsAreWellFormed(w0: World, run: seq<Action>, id: string)
    requires Initial(w0) && Legal(w0, run) && id in After(w0, run).works
    ensures WellFormed(w0.cfg.hostingNamespace, w0.cfg.byReference, After(w0, run).works[id].spec.payload)
    ensures var ns, payload := w0.cfg.hostingNamespace, After(w0, run).works[id].spec.payload;
            && (forall name :: NamesSecret(w0.cfg.byReference, payload[1].spec, name) ==> HasSecret(payload, ns, name))
            && (forall name :: UsesConfigMap(payload, payload[1].spec, name) ==> ConfigMap(ns, name) in payload)
  {
    ReachableInv(w0, run);
    CfgIsFixed(w0, run);
    assert WorkIsGood(After(w0, run), id, After(w0, run).works[id]);
    WellFormedIff(w0.cfg.hostingNamespace, w0.cfg.byReference, After(w0, run).works[id].spec.payload);
  }

  // ---- one infra id --------------------------------------------------------------------------------

  /** The infra id a call names, if it names one. */
  function NamedId(a: Action): Option<string> {
    match a
    case Agent(g) => Some(g.id)
    case Main(PersistId(id)) => Some(id)
    case Main(CreateInfra(id, _)) => Some(id)
    case Main(CreateIam(id, _)) => Some(id)
    case Main(CreateWork(id, _)) => Some(id)
    case Main(UpdateWork(id, _)) => Some(id)
    case Main(PatchDeleteOption(id)) => Some(id)
    case Main(DeleteWork(id)) => Some(id)
    case Main(DestroyInfra(id, _)) => Some(id)
    case Main(DestroyIam(id, _)) => Some(id)
    case _ => None
  }

  /** The run is bound to `id`: it is recorded and held, or the hold is over and nothing is left to name. */
  predicate BoundTo(w: World, id: string) {
    || Holds(w, id)
    || (w.works == map[] && (w.hyd.None? || (w.hyd.value.deleting && Destroy !in w.hyd.value.finalizers)))
  }

  lemma BoundMainStep(w: World, a: MainAction, id: string)
    requires MainEnabled(w, a) && BoundTo(w, id) && w.works.Keys <= {id}
    ensures NamedId(Main(a)) == None || NamedId(Main(a)) == Some(id)
    ensures BoundTo(MainApply(w, a), id)
  {
  }

  lemma BoundStep(w: World, a: Action, id: string)
    requires Enabled(w, a) && BoundTo(w, id) && w.works.Keys <= {id}
    ensures NamedId(a) == None || NamedId(a) == Some(id)
    ensures BoundTo(Apply(w, a), id)
  {
    if a.Main? {
      BoundMainStep(w, a.main, id);
    } else if a.Import? {
      ImportKeepsDestroy(w, a.imp);
    }
  }

  lemma WorksUnderId(w: World, id: string)
    requires Inv(w) && BoundTo(w, id)
    ensures w.works.Keys <= {id}
  {
    forall k | k in w.works ensures k == id {
      assert WorkIsGood(w, k, w.works[k]);
    }
  }

  lemma {:induction false} BoundRun(w: World, run: seq<Action>, id: string)
    requires Inv(w) && Legal(w, run) && BoundTo(w, id)
    ensures forall a | a in run :: NamedId(a) == None || NamedId(a) == Some(id)
    ensures BoundTo(After(w, run), id)
    decreases |run|
  {
    if run != [] {
      WorksUnderId(w, id);
      BoundStep(w, run[0], id);
      StepKeepsInv(w, run[0]);
      BoundRun(Apply(w, run[0]), run[1..], id);
      forall a | a in run ensures NamedId(a) == None || NamedId(a) == Some(id) {
        assert a == run[0] || a in run[1..];
      }
    }
  }

  /** Before the first successful write no id is bound, and nothing that could be named exists. */
  predicate Unbound(w: World) {
    !HasFinalizer(w, Destroy) && w.works == map[]
  }

  lemma UnboundMainStep(w: World, a: MainAction)
    requires MainEnabled(w, a) && Unbound(w)
    ensures a.PersistId? ==> Holds(MainApply(w, a), a.id) && (w.hyd.value.infraID != "" ==> a.id == w.hyd.value.infraID)
    ensures !a.PersistId? ==>
              && NamedId(Main(a)) == None && Unbound(MainApply(w, a))
              && (MainApply(w, a).hyd.Some? ==>
                    w.hyd.Some? && MainApply(w, a).hyd.value.infraID == w.hyd.value.infraID)
  {
  }

  lemma UnboundImportStep(w: World, a: ImportAction)
    requires ImportEnabled(w, a) && Unbound(w)
    ensures Unbound(ImportApply(w, a))
    ensures ImportApply(w, a).hyd.Some? ==> w.hyd.Some? && ImportApply(w, a).hyd.value.infraID == w.hyd.value.infraID
  {
    ImportKeepsDestroy(w, a);
  }

  lemma UnboundOtherStep(w: World, a: Action)
    requires Enabled(w, a) && Unbound(w) && !a.Main?
    ensures NamedId(a) == None && Unbound(Apply(w, a))
    ensures Apply(w, a).hyd.Some? ==> w.hyd.Some? && Apply(w, a).hyd.value.infraID == w.hyd.value.infraID
  {
    if a.Import? {
      UnboundImportStep(w, a.imp);
    }
  }

  lemma UnboundStep(w: World, a: Action)
    requires Enabled(w, a) && Unbound(w)
    ensures NamedId(a).Some? ==>
              && a == Main(PersistId(NamedId(a).value)) && Holds(Apply(w, a), NamedId(a).value)
              && (w.hyd.value.infraID != "" ==> NamedId(a) == Some(w.hyd.value.infraID))
    ensures NamedId(a).None? ==>
              && Unbound(Apply(w, a))
              && (Apply(w, a).hyd.Some? ==> w.hyd.Some? && Apply(w, a).hyd.value.infraID == w.hyd.value.infraID)
  {
    if a.Main? {
      UnboundMainStep(w, a.main);
    } else {
      UnboundOtherStep(w, a);
    }
  }

  /**
   Every cloud call and every ManifestWork call of a run uses one and the same infra id, however many
   random ids failed first writes discarded; if the user chose an id, it is that one.
   */
  lemma {:induction false} OneIdPerRun(w: World, run: seq<Action>)
    requires Inv(w) && Unbound(w) && Legal(w, run)
    ensures forall a, b | a in run && b in run && NamedId(a).Some? && NamedId(b).Some? :: NamedId(a) == NamedId(b)
    ensures w.hyd.Some? && w.hyd.value.infraID != "" ==>
              forall a | a in run && NamedId(a).Some? :: NamedId(a) == Some(w.hyd.value.infraID)
    decreases |run|
  {
    if run != [] {
      var v := Apply(w, run[0]);
      UnboundStep(w, run[0]);
      StepKeepsInv(w, run[0]);
      assert forall a | a in run :: a == run[0] || a in run[1..];
      if NamedId(run[0]).Some? {
        BoundRun(v, run[1..], NamedId(run[0]).value);
      } else {
        OneIdPerRun(v, run[1..]);
        if w.hyd.Some? && v.hyd.None? {
          NamelessAfterGone(v, run[1..]);
        }
      }
    }
  }

  lemma {:induction false} NamelessAfterGone(w: World, run: seq<Action>)
    requires w.hyd.None? && w.works == map[] && Legal(w, run)
    ensures forall a | a in run :: NamedId(a) == None
    decreases |run|
  {
    if run != [] {
      GoneIsQuiet(w, run[0]);
      SettledStays(w, run[0]);
      NamelessAfterGone(Apply(w, run[0]), run[1..]);
      assert forall a | a in run :: a == run[0] || a in run[1..];
    }
  }

  /** The destroy finalizer is never there without a recorded infra id. */
  lemma FinalizerImpliesId(w0: World, run: seq<Action>)
    requires Initial(w0) && Legal(w0, run)
    ensures HasFinalizer(After(w0, run), Destroy) ==> After(w0, run).hyd.value.infraID != ""
  {
    ReachableInv(w0, run);
  }

  // ---- one-shot import -----------------------------------------------------------------------------

  /** Import is over: the annotation says so or deletion has started, and no pass that saw otherwise can still create. */
  predicate ImportIsOver(w: World) {
    || (w.imp != Importing && (w.hyd.None? || w.hyd.value.deleting || SaysFalse(w.hyd.value.createMc)))
    || (HasFinalizer(w, ManagedClusterCleanup) && SaysFalse(w.hyd.value.createMc))
  }

  lemma ImportOverMainStep(w: World, a: MainAction)
    requires MainEnabled(w, a) && ImportIsOver(w)
    ensures ImportIsOver(MainApply(w, a))
    ensures MainApply(w, a).mc == w.mc
  {
  }

  lemma ImportOverImportStep(w: World, a: ImportAction)
    requires ImportEnabled(w, a) && ImportIsOver(w)
    ensures ImportIsOver(ImportApply(w, a))
    ensures w.mc.None? ==> ImportApply(w, a).mc.None?
  {
  }

  lemma ImportOverStep(w: World, a: Action)
    requires Enabled(w, a) && ImportIsOver(w)
    ensures ImportIsOver(Apply(w, a))
    ensures w.mc.None? ==> Apply(w, a).mc.None?
  {
    if a.Main? {
      ImportOverMainStep(w, a.main);
    } else if a.Import? {
      ImportOverImportStep(w, a.imp);
    }
  }

  /** A detached cluster stays detached: once import is over, a managed cluster that is gone never comes back. */
  lemma {:induction false} DetachedStaysDetached(w: World, run: seq<Action>)
    requires Legal(w, run) && ImportIsOver(w) && w.mc.None?
    ensures After(w, run).mc.None?
    decreases |run|
  {
    if run != [] {
      ImportOverStep(w, run[0]);
      DetachedStaysDetached(Apply(w, run[0]), run[1..]);
    }
  }

  /** A pass that saw the import as wanted has marked the deployment before it silences further ones. */
  predicate MarkedBeforeSilenced(w: World) {
    w.imp == Importing && w.hyd.Some? && SaysFalse(w.hyd.value.createMc) ==> HasFinalizer(w, ManagedClusterCleanup)
  }

  lemma MarkedMainStep(w: World, a: MainAction)
    requires MainEnabled(w, a) && MarkedBeforeSilenced(w)
    ensures MarkedBeforeSilenced(MainApply(w, a))
  {
  }

  lemma {:induction false} MarkedRun(w: World, run: seq<Action>)
    requires Legal(w, run) && MarkedBeforeSilenced(w)
    ensures MarkedBeforeSilenced(After(w, run))
    decreases |run|
  {
    if run != [] {
      if run[0].Main? {
        MarkedMainStep(w, run[0].main);
      }
      MarkedRun(Apply(w, run[0]), run[1..]);
    }
  }

  /** The steps by which a managed cluster can still appear. */
  function ImportSteps(w: World): seq<Action> {
    if w.imp == Importing then [Import(CreateCluster)]
    else
      (if w.main == Creating then [Main(EndMain)] else if w.imp == Skipping then [Import(EndImport)] else [])
      + [Import(BeginImport), Import(CreateCluster)]
  }

  lemma ImportIsPossible(w: World)
    requires PassesAreOrderly(w) && w.imp == ImportIdle && w.main == MainIdle && w.mc.None?
    requires w.hyd.Some? && !w.hyd.value.deleting && !SaysFalse(w.hyd.value.createMc)
    ensures Legal(w, [Import(BeginImport), Import(CreateCluster)])
    ensures After(w, [Import(BeginImport), Import(CreateCluster)]).mc.Some?
  {
    var run := [Import(BeginImport), Import(CreateCluster)];
    assert run[1..] == [Import(CreateCluster)] && run[1..][1..] == [];
  }

  lemma ClusterCanAppear(w: World)
    requires PassesAreOrderly(w) && MarkedBeforeSilenced(w) && w.mc.None? && !ImportIsOver(w)
    ensures Legal(w, ImportSteps(w)) && After(w, ImportSteps(w)).mc.Some?
  {
    var run := ImportSteps(w);
    if w.imp == Importing {
      assert run[1..] == [];
    } else if w.main == Creating || w.imp == Skipping {
      ImportIsPossible(Apply(w, run[0]));
      assert run[1..] == [Import(BeginImport), Import(CreateCluster)];
    } else {
      ImportIsPossible(w);
      assert run == [Import(BeginImport), Import(CreateCluster)];
    }
  }

  /**
   One-shot import, exactly. In any reachable state without a managed cluster, some continuation of the
   run brings one up if and only if import is not over: the annotation does not say false and the
   deployment is live, or a pass that saw it so is in flight and has not marked it yet. Deletion alone
   does not stop such a pass.
   */
  lemma ClusterAppearsIffImportIsOpen(w0: World, run: seq<Action>)
    requires Initial(w0) && Legal(w0, run) && After(w0, run).mc.None?
    ensures var w := After(w0, run);
            (exists more :: Legal(w, more) && After(w, more).mc.Some?) <==> !ImportIsOver(w)
  {
    var w := After(w0, run);
    ReachableInv(w0, run);
    MarkedRun(w0, run);
    if ImportIsOver(w) {
      forall more | Legal(w, more) ensures After(w, more).mc.None? {
        DetachedStaysDetached(w, more);
      }
    } else {
      ClusterCanAppear(w);
    }
  }

  const LATE_IMPORT := [Import(BeginImport), User(DeleteDeployment), Import(CreateCluster), Import(EndImport)]

  /**
   The run in which a managed cluster outlives its deployment: the pass finds none, the deployment is
   deleted before it carries the finalizer, and the cluster is created all the same.
   */
  lemma ClusterCanOutliveDeployment(w: World)
    requires Initial(w) && w.mc.None? && !SaysFalse(w.hyd.value.createMc)
    ensures Legal(w, LATE_IMPORT)
    ensures var v := After(w, LATE_IMPORT);
            v.hyd.None? && v.mc == Some(ManagedCluster(false, false, false)) && v.imp == ImportIdle && !v.everImported
  {
    var run := LATE_IMPORT;
    assert run[1..] == [User(DeleteDeployment), Import(CreateCluster), Import(EndImport)];
    assert run[1..][1..] == [Import(CreateCluster), Import(EndImport)];
    assert run[1..][1..][1..] == [Import(EndImport)] && run[1..][1..][1..][1..] == [];
  }
}
