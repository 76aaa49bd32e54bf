/**
 Deletion terminates. A measure over the managed cluster, the work, the agent's lag, the cloud and the
 finalizers never rises once deletion has settled, whatever healthy steps are taken, and whenever the
 deployment still exists there is one actor whose next undisturbed pass lowers it. So the two
 reconcilers, the agent and the import controller never wait for each other in a cycle.
 */
module Teardown {
  import opened Wrappers
  import opened Api
  import opened Lifecycle
  import opened Invariant
  import opened RoleMigration
  import Guarantees
  import opened MainTeardown
  import MainReconciler
  import ImportReconciler

  /** A healthy agent reports only that its work is available. */
  predicate Healthy(a: Action) {
    !(a.Agent? && a.agent.Report? && !a.agent.ok)
  }

  predicate AllHealthy(run: seq<Action>) {
    forall a | a in run :: Healthy(a)
  }

  /** Neither reconciler starts a pass as if the deployment were alive. */
  predicate PassesKnow(w: World) {
    w.main != Creating && (w.hyd.Some? ==> w.hyd.value.deleting && w.imp != Importing)
  }

  /** Deletion has settled: no pass that read the deployment alive is still running. */
  predicate Ending(w: World) {
    Inv(w) && PassesKnow(w)
  }

  // ---- the measure -------------------------------------------------------------------------------

  function ClusterPhase(mc: Option<ManagedCluster>): nat {
    if mc.None? then 0 else if !mc.value.deleting then 3 else if mc.value.workFinalizer then 2 else 1
  }

  /** 5: option to be patched; 4: agent to apply it; 3: agent to report it; 2: to be deleted; 1: agent to remove it. */
  function WorkPhase(cfg: Config, works: map<string, Work>, id: string): nat {
    if id !in works then 0
    else if works[id].deleting then 1
    else if Wanted(cfg) == OrphanAll then 2
    else if works[id].spec.deleteOption != Wanted(cfg) then 5
    else if !UpToDate(works[id]) then 4
    else if works[id].available != Some(Availability(true, works[id].generation)) then 3
    else 2
  }

  function InfraPhase(cfg: Config, infra: Stage): nat {
    if !cfg.configure || cfg.override == Orphan then 0
    else match infra case Absent => 0 case Partial => 1 case Full => 2
  }

  function IamPhase(cfg: Config, iam: Iam): nat {
    if !cfg.configure || cfg.override == Orphan then 0
    else match iam case NoIam => 0 case PartialIam => 1 case FullIam(_) => 2
  }

  function FinalizerPhase(h: Hyd, f: Finalizer): nat {
    if f in h.finalizers then 1 else 0
  }

  datatype Phases = Phases(mc: nat, cleanup: nat, work: nat, infra: nat, iam: nat, destroy: nat)

  function PhasesOf(w: World): Phases
    requires w.hyd.Some?
  {
    var h := w.hyd.value;
    Phases(ClusterPhase(w.mc), FinalizerPhase(h, ManagedClusterCleanup), WorkPhase(w.cfg, w.works, h.infraID),
           InfraPhase(w.cfg, CloudOf(w, h.infraID).infra), IamPhase(w.cfg, CloudOf(w, h.infraID).iam),
           FinalizerPhase(h, Destroy))
  }

  function Sum(p: Phases): nat {
    p.mc + p.cleanup + p.work + p.infra + p.iam + p.destroy
  }

  predicate NoHigher(p: Phases, q: Phases) {
    p.mc <= q.mc && p.cleanup <= q.cleanup && p.work <= q.work && p.infra <= q.infra && p.iam <= q.iam
    && p.destroy <= q.destroy
  }

  /** What is left to do; nothing once the deployment is gone. */
  function Measure(w: World): (r: nat)
    ensures r <= 14
  {
    if w.hyd.None? then 0 else Sum(PhasesOf(w))
  }

  // ---- no healthy step raises it -----------------------------------------------------------------

  lemma CloudUnchanged(w: World, v: World)
    requires w.hyd.Some? && v.hyd.Some? && v.cfg == w.cfg && v.cloud == w.cloud
    requires v.hyd.value.infraID == w.hyd.value.infraID
    ensures PhasesOf(v).infra == PhasesOf(w).infra && PhasesOf(v).iam == PhasesOf(w).iam
  {
  }

  lemma AgentNeverRaises(w: World, a: AgentAction)
    requires Ending(w) && w.hyd.Some? && AgentEnabled(w, a) && Healthy(Agent(a))
    ensures NoHigher(PhasesOf(AgentApply(w, a)), PhasesOf(w))
  {
    CloudUnchanged(w, AgentApply(w, a));
    assert WorkIsGood(w, a.id, w.works[a.id]);
  }

  lemma ImportNeverRaises(w: World, a: ImportAction)
    requires Ending(w) && w.hyd.Some? && ImportEnabled(w, a) && ImportApply(w, a).hyd.Some?
    ensures NoHigher(PhasesOf(ImportApply(w, a)), PhasesOf(w))
  {
    CloudUnchanged(w, ImportApply(w, a));
  }

  lemma MainNeverRaises(w: World, a: MainAction)
    requires PassesKnow(w) && w.hyd.Some? && MainEnabled(w, a) && MainApply(w, a).hyd.Some?
    ensures NoHigher(PhasesOf(MainApply(w, a)), PhasesOf(w))
  {
  }

  lemma UserNeverRaises(w: World, a: UserAction)
    requires w.hyd.Some? && UserEnabled(w, a) && UserApply(w, a).hyd.Some?
    ensures NoHigher(PhasesOf(UserApply(w, a)), PhasesOf(w))
  {
    CloudUnchanged(w, UserApply(w, a));
  }

  lemma ControllerNeverRaises(w: World, a: ControllerAction)
    requires w.hyd.Some? && ControllerEnabled(w, a)
    ensures NoHigher(PhasesOf(ControllerApply(w, a)), PhasesOf(w))
  {
    CloudUnchanged(w, ControllerApply(w, a));
  }

  lemma MainPassesKnow(w: World, a: MainAction)
    requires PassesKnow(w) && MainEnabled(w, a)
    ensures PassesKnow(MainApply(w, a))
  {
  }

  lemma ImportPassesKnow(w: World, a: ImportAction)
    requires PassesKnow(w) && ImportEnabled(w, a)
    ensures PassesKnow(ImportApply(w, a))
  {
  }

  lemma StepStaysEnding(w: World, a: Action)
    requires Ending(w) && Enabled(w, a)
    ensures Ending(Apply(w, a))
    ensures w.hyd.None? ==> Apply(w, a).hyd.None?
  {
    StepKeepsInv(w, a);
    Guarantees.SettledStays(w, a);
    if a.Main? {
      MainPassesKnow(w, a.main);
    } else if a.Import? {
      ImportPassesKnow(w, a.imp);
    }
  }

  lemma StepNeverRaises(w: World, a: Action)
    requires Ending(w) && w.hyd.Some? && Enabled(w, a) && Healthy(a) && Apply(w, a).hyd.Some?
    ensures NoHigher(PhasesOf(Apply(w, a)), PhasesOf(w))
  {
    match a
    case User(u) => UserNeverRaises(w, u);
    case Controller(c) => ControllerNeverRaises(w, c);
    case Agent(g) => AgentNeverRaises(w, g);
    case Main(m) => MainNeverRaises(w, m);
    case Import(i) => ImportNeverRaises(w, i);
  }

  /** Nothing healthy that happens during the teardown undoes any part of it. */
  lemma {:induction false} NothingRaises(w: World, run: seq<Action>)
    requires Ending(w) && Legal(w, run) && AllHealthy(run)
    ensures Ending(After(w, run))
    ensures w.hyd.None? ==> After(w, run).hyd.None?
    ensures w.hyd.Some? && After(w, run).hyd.Some? ==> NoHigher(PhasesOf(After(w, run)), PhasesOf(w))
    ensures Measure(After(w, run)) <= Measure(w)
    decreases |run|
  {
    if run != [] {
      var v := Apply(w, run[0]);
      StepStaysEnding(w, run[0]);
      if w.hyd.Some? && v.hyd.Some? {
        StepNeverRaises(w, run[0]);
      }
      assert forall a | a in run[1..] :: a in run;
      NothingRaises(v, run[1..]);
    }
  }

  // ---- undisturbed passes --------------------------------------------------------------------------

  datatype Actor = MainReconciler | ImportReconciler | ImportController | WorkAgent

  predicate Idle(w: World) {
    w.main == MainIdle && w.imp == ImportIdle
  }

  function ControllerCalls(mc: Option<ManagedCluster>): seq<Action> {
    if mc.None? || !mc.value.deleting then []
    else if mc.value.workFinalizer then [Controller(DropWorkFinalizer)]
    else [Controller(RemoveCluster)]
  }

  function AgentCalls(works: map<string, Work>, id: string): seq<Action> {
    if id !in works then []
    else if works[id].deleting then [Agent(FinishRemoval(id))]
    else if !UpToDate(works[id]) then [Agent(Consume(id))]
    else if works[id].available != Some(Availability(true, works[id].generation)) then [Agent(Report(id, true))]
    else []
  }

  /** What an actor does when its pass is not disturbed and all its calls succeed. */
  function PassOf(w: World, actor: Actor): seq<Action> {
    if w.hyd.None? then []
    else match actor
      case MainReconciler => MainReconciler.DestroyPassCalls(w)
      case ImportReconciler => ImportReconciler.ImportPassCalls(w, false)
      case ImportController => ControllerCalls(w.mc)
      case WorkAgent => AgentCalls(w.works, w.hyd.value.infraID)
  }

  /** The actor everything else waits for. */
  function Turn(p: Phases): Actor {
    if p.mc == 3 then ImportReconciler
    else if p.mc == 2 then ImportController
    else if p.cleanup == 1 then ImportReconciler
    else if p.work == 4 || p.work == 3 || p.work == 1 then WorkAgent
    else MainReconciler
  }

  // ---- the passes of the agent, the import controller and the import reconciler ----------------------

  lemma One(w: World, a: Action)
    requires Enabled(w, a)
    ensures Legal(w, [a]) && After(w, [a]) == Apply(w, a)
  {
    assert [a][1..] == [];
  }

  lemma Glue(w: World, a: seq<Action>, b: seq<Action>)
    requires Legal(w, a) && Legal(After(w, a), b)
    ensures Legal(w, a + b) && After(w, a + b) == After(After(w, a), b)
  {
    RunsCompose(w, a, b);
  }

  lemma ControllerPass(w: World)
    requires Ending(w) && w.hyd.Some?
    ensures var calls := ControllerCalls(w.mc);
            && Legal(w, calls)
            && After(w, calls).main == w.main && After(w, calls).imp == w.imp && After(w, calls).hyd == w.hyd
            && (ClusterPhase(w.mc) == 2 ==> ClusterPhase(After(w, calls).mc) == 1)
  {
    if ControllerCalls(w.mc) != [] {
      One(w, ControllerCalls(w.mc)[0]);
    }
  }

  lemma AgentPass(w: World, id: string)
    requires Ending(w) && w.hyd.Some?
    ensures var calls := AgentCalls(w.works, id);
            && Legal(w, calls)
            && After(w, calls).main == w.main && After(w, calls).imp == w.imp && After(w, calls).hyd == w.hyd
            && After(w, calls).cfg == w.cfg
            && (WorkPhase(w.cfg, w.works, id) in {4, 3, 1} ==>
                  WorkPhase(w.cfg, After(w, calls).works, id) < WorkPhase(w.cfg, w.works, id))
  {
    if AgentCalls(w.works, id) != [] {
      assert WorkIsGood(w, id, w.works[id]);
      One(w, AgentCalls(w.works, id)[0]);
    }
  }

  lemma DetachSteps(u: World)
    requires u.hyd.Some? && u.hyd.value.deleting && u.imp == Detaching
    ensures var calls := ImportReconciler.DetachCalls(u.hyd.value, u.mc);
            && Legal(u, calls)
            && After(u, calls).main == u.main && After(u, calls).imp == u.imp
            && (ClusterPhase(u.mc) == 3 ==> ClusterPhase(After(u, calls).mc) < 3)
            && (ClusterPhase(u.mc) <= 1 && After(u, calls).hyd.Some? ==>
                  ManagedClusterCleanup !in After(u, calls).hyd.value.finalizers)
  {
    var calls := ImportReconciler.DetachCalls(u.hyd.value, u.mc);
    if calls != [] {
      One(u, calls[0]);
    }
  }

  lemma ImportPass(w: World)
    requires Ending(w) && w.hyd.Some? && Idle(w)
    ensures var calls := ImportReconciler.ImportPassCalls(w, false);
            && Legal(w, calls) && AllHealthy(calls) && Idle(After(w, calls))
            && (ClusterPhase(w.mc) == 3 ==> ClusterPhase(After(w, calls).mc) < 3)
            && (ClusterPhase(w.mc) <= 1 && After(w, calls).hyd.Some? ==>
                  ManagedClusterCleanup !in After(w, calls).hyd.value.finalizers)
  {
    var u := ImportApply(w, BeginImport);
    var body := ImportReconciler.DetachCalls(w.hyd.value, w.mc);
    One(w, Import(BeginImport));
    DetachSteps(u);
    Glue(w, [Import(BeginImport)], body);
    One(After(u, body), Import(EndImport));
    Glue(w, [Import(BeginImport)] + body, [Import(EndImport)]);
  }

  // ---- the pass of the main reconciler ---------------------------------------------------------------

  /** Only the resource version of the deployment may differ. */
  predicate SameButVersion(u: World, v: World) {
    u.hyd.Some? && v.hyd.Some? && v == u.(hyd := Some(u.hyd.value.(version := v.hyd.value.version)))
  }

  lemma SecretSteps(u: World, cluster: Option<HostedClusterSpec>)
    requires u.hyd.Some? && u.main != MainIdle
    ensures var calls := MainReconciler.SecretCalls(u.cfg, cluster);
            Legal(u, calls) && SameButVersion(u, After(u, calls))
  {
    if MainReconciler.SecretCalls(u.cfg, cluster) != [] {
      One(u, Main(TouchStatus));
    }
  }

  lemma RoleSteps(u: World)
    requires u.hyd.Some? && u.main == Destroying
    ensures var calls := MainReconciler.RoleCalls(u.hyd.value.cluster);
            && Legal(u, calls) && After(u, calls).hyd.Some?
            && After(u, calls).main == u.main && After(u, calls).imp == u.imp && After(u, calls).cfg == u.cfg
            && (!HasDeprecatedRoles(u.hyd.value.cluster) ==> After(u, calls) == u)
  {
    if HasDeprecatedRoles(u.hyd.value.cluster) {
      One(u, Main(MigrateRoles));
    }
  }

  lemma FirstSteps(u: World)
    requires u.hyd.Some? && u.main == Destroying
    ensures var calls := MainReconciler.FirstCalls(u.cfg, u.hyd.value);
            && Legal(u, calls) && After(u, calls).main == u.main && After(u, calls).imp == u.imp
            && (!HasDeprecatedRoles(u.hyd.value.cluster) ==> SameButVersion(u, After(u, calls)))
  {
    var roles := MainReconciler.RoleCalls(u.hyd.value.cluster);
    RoleSteps(u);
    SecretSteps(After(u, roles), u.hyd.value.cluster);
    Glue(u, roles, MainReconciler.SecretCalls(u.cfg, u.hyd.value.cluster));
  }

  /** What a cleanup of the work leaves alone. */
  predicate CleanupFrame(u: World, v: World) {
    u.hyd.Some? && v.hyd.Some? && v.hyd.value == u.hyd.value.(version := v.hyd.value.version)
    && v.cfg == u.cfg && v.main == u.main && v.imp == u.imp && v.cloud == u.cloud && v.mc == u.mc
  }

  lemma DeleteStep(u: World, id: string)
    requires MayTearDown(u, id) && id in u.works && AgentIsHonest(u.works[id])
    requires CleanupCalls(u.cfg, u.works, id) == [Main(DeleteWork(id))]
    ensures MainEnabled(u, DeleteWork(id))
    ensures WorkPhase(u.cfg, u.works, id) == 2 && WorkPhase(u.cfg, MainApply(u, DeleteWork(id)).works, id) == 1
  {
  }

  lemma PatchStep(u: World, id: string)
    requires MayTearDown(u, id) && id in u.works
    requires CleanupCalls(u.cfg, u.works, id) == [Main(PatchDeleteOption(id))]
    ensures MainEnabled(u, PatchDeleteOption(id))
    ensures WorkPhase(u.cfg, u.works, id) == 5 && WorkPhase(u.cfg, MainApply(u, PatchDeleteOption(id)).works, id) < 5
  {
  }

  lemma NoCleanupCalls(u: World, id: string)
    requires CleanupCalls(u.cfg, u.works, id) == []
    requires id in u.works ==> AgentIsHonest(u.works[id])
    ensures WorkPhase(u.cfg, u.works, id) !in {5, 2}
  {
  }

  lemma CleanupSteps(u: World, id: string)
    requires MayTearDown(u, id) && (id in u.works ==> AgentIsHonest(u.works[id]))
    ensures var calls := CleanupCalls(u.cfg, u.works, id);
            && Legal(u, calls) && CleanupFrame(u, After(u, calls))
            && (id !in u.works ==> After(u, calls).works == u.works)
            && (WorkPhase(u.cfg, u.works, id) in {5, 2} ==>
                  WorkPhase(u.cfg, After(u, calls).works, id) < WorkPhase(u.cfg, u.works, id))
  {
    var calls := CleanupCalls(u.cfg, u.works, id);
    if calls == [] {
      NoCleanupCalls(u, id);
    } else if calls == [Main(DeleteWork(id))] {
      DeleteStep(u, id);
      One(u, Main(DeleteWork(id)));
    } else {
      PatchStep(u, id);
      One(u, Main(PatchDeleteOption(id)));
    }
  }

  lemma WorkSteps(u: World, id: string)
    requires MayTearDown(u, id) && (id in u.works ==> AgentIsHonest(u.works[id]))
    ensures var calls := CleanupCalls(u.cfg, u.works, id) + [Main(TouchStatus)];
            && Legal(u, calls) && CleanupFrame(u, After(u, calls))
            && (id !in u.works ==> After(u, calls).works == u.works)
            && (WorkPhase(u.cfg, u.works, id) in {5, 2} ==>
                  WorkPhase(u.cfg, After(u, calls).works, id) < WorkPhase(u.cfg, u.works, id))
  {
    var calls := CleanupCalls(u.cfg, u.works, id);
    CleanupSteps(u, id);
    One(After(u, calls), Main(TouchStatus));
    Glue(u, calls, [Main(TouchStatus)]);
  }

  lemma InfraSteps(u: World, id: string)
    requires MayTearDown(u, id) && u.works == map[] && u.cfg.configure && u.cfg.override != Orphan
    ensures var calls := [Main(MarkInfra(false)), Main(DestroyInfra(id, Absent))];
            && Legal(u, calls)
            && var v := After(u, calls);
               MayTearDown(v, id) && v.works == map[] && v.cfg == u.cfg && v.imp == u.imp && CloudOf(v, id).infra == Absent
  {
    One(u, Main(MarkInfra(false)));
    var v := MainApply(u, MarkInfra(false));
    One(v, Main(DestroyInfra(id, Absent)));
    Glue(u, [Main(MarkInfra(false))], [Main(DestroyInfra(id, Absent))]);
    assert [Main(MarkInfra(false))] + [Main(DestroyInfra(id, Absent))]
        == [Main(MarkInfra(false)), Main(DestroyInfra(id, Absent))];
  }

  lemma IamSteps(u: World, id: string)
    requires MayTearDown(u, id) && u.works == map[] && u.cfg.configure && u.cfg.override != Orphan
    requires CloudOf(u, id).infra == Absent
    ensures var calls := [Main(MarkIam(false)), Main(DestroyIam(id, NoIam))];
            && Legal(u, calls)
            && var v := After(u, calls);
               MayTearDown(v, id) && v.works == map[] && v.cfg == u.cfg && v.imp == u.imp && CloudOf(v, id) == NOTHING
  {
    One(u, Main(MarkIam(false)));
    var v := MainApply(u, MarkIam(false));
    One(v, Main(DestroyIam(id, NoIam)));
    Glue(u, [Main(MarkIam(false))], [Main(DestroyIam(id, NoIam))]);
    assert [Main(MarkIam(false))] + [Main(DestroyIam(id, NoIam))] == [Main(MarkIam(false)), Main(DestroyIam(id, NoIam))];
  }

  /** The last steps: the cloud, if it is to be cleaned up, and the finalizer; then the deployment is gone. */
  lemma ReleaseSteps(u: World, id: string)
    requires MayTearDown(u, id) && u.works == map[]
    ensures var calls := CloudCalls(u.cfg, id) + [Main(RemoveDestroyFinalizer)];
            && Legal(u, calls)
            && After(u, calls).hyd.None? && After(u, calls).main == u.main && After(u, calls).imp == u.imp
  {
    var calls := CloudCalls(u.cfg, id);
    if calls != [] {
      var infra, iam := [Main(MarkInfra(false)), Main(DestroyInfra(id, Absent))], [Main(MarkIam(false)), Main(DestroyIam(id, NoIam))];
      InfraSteps(u, id);
      IamSteps(After(u, infra), id);
      Glue(u, infra, iam);
      assert calls == infra + iam;
    }
    var v := After(u, calls);
    assert forall f | f in v.hyd.value.finalizers :: f.Destroy? || f.ManagedClusterCleanup?;
    assert v.hyd.value.finalizers - {Destroy} == {};
    One(v, Main(RemoveDestroyFinalizer));
    Glue(u, calls, [Main(RemoveDestroyFinalizer)]);
  }

  lemma WorksGone(u: World, id: string)
    requires Inv(u) && Holds(u, id)
    ensures id !in u.works || u.cfg.override == InfraOnly ==> u.works == map[]
    ensures id in u.works ==> AgentIsHonest(u.works[id])
  {
    forall k | k in u.works ensures k == id && AgentIsHonest(u.works[k]) && u.cfg.override != InfraOnly {
      assert WorkIsGood(u, k, u.works[k]);
    }
  }

  lemma DestroySteps(u: World, id: string)
    requires Inv(u) && u.main == Destroying && Holds(u, id) && u.hyd.value.deleting
    ensures var calls := DestroyCalls(u.cfg, u.hyd.value.finalizers, u.works, id);
            && Legal(u, calls)
            && var v := After(u, calls);
            && v.main == Destroying && v.imp == u.imp
            && (ManagedClusterCleanup !in u.hyd.value.finalizers && v.hyd.Some? ==>
                  && CleanupFrame(u, v) && WorkPhase(u.cfg, u.works, id) > 0
                  && (WorkPhase(u.cfg, u.works, id) in {5, 2} ==>
                        WorkPhase(u.cfg, v.works, id) < WorkPhase(u.cfg, u.works, id)))
  {
    if ManagedClusterCleanup !in u.hyd.value.finalizers {
      WorksGone(u, id);
      var first := CleanupCalls(u.cfg, u.works, id) + [Main(TouchStatus)];
      var rest := CloudCalls(u.cfg, id) + [Main(RemoveDestroyFinalizer)];
      if u.cfg.override == InfraOnly {
        ReleaseSteps(u, id);
        assert [] + rest == rest;
      } else if id in u.works {
        WorkSteps(u, id);
        assert first + [] == first;
      } else {
        WorkSteps(u, id);
        ReleaseSteps(After(u, first), id);
        Glue(u, first, rest);
      }
    }
  }

  /** The calls between beginning and end. */
  lemma BodySteps(u: World)
    requires Inv(u) && u.main == Destroying && u.hyd.Some? && u.hyd.value.deleting
    ensures var h := u.hyd.value;
            var calls := MainReconciler.PassCalls(u.cfg, h, u.works);
            && Legal(u, calls)
            && var v := After(u, calls);
            && v.main == Destroying && v.imp == u.imp
            && (h.finalizers == {Destroy} && v.hyd.Some? ==>
                  && CleanupFrame(u, v) && WorkPhase(u.cfg, u.works, h.infraID) > 0
                  && (WorkPhase(u.cfg, u.works, h.infraID) in {5, 2} ==>
                        WorkPhase(u.cfg, v.works, h.infraID) < WorkPhase(u.cfg, u.works, h.infraID)))
  {
    var h := u.hyd.value;
    var first := MainReconciler.FirstCalls(u.cfg, h);
    FirstSteps(u);
    if Destroy in h.finalizers {
      var m := After(u, first);
      RunsKeepInv(u, first);
      DestroySteps(m, h.infraID);
      Glue(u, first, DestroyCalls(u.cfg, h.finalizers, u.works, h.infraID));
    } else {
      assert first + [] == first;
    }
  }

  lemma MainPass(w: World)
    requires Ending(w) && w.hyd.Some? && Idle(w)
    ensures var calls := MainReconciler.DestroyPassCalls(w);
            && Legal(w, calls) && Idle(After(w, calls))
            && var h, v := w.hyd.value, After(w, calls);
               h.finalizers == {Destroy} && v.hyd.Some? ==>
                 && CleanupFrame(w, v) && WorkPhase(w.cfg, w.works, h.infraID) > 0
                 && (WorkPhase(w.cfg, w.works, h.infraID) in {5, 2} ==>
                       WorkPhase(w.cfg, v.works, h.infraID) < WorkPhase(w.cfg, w.works, h.infraID))
  {
    var u := MainApply(w, BeginMain);
    var body := MainReconciler.PassCalls(w.cfg, w.hyd.value, w.works);
    One(w, Main(BeginMain));
    BeginKeepsInv(w);
    BodySteps(u);
    Glue(w, [Main(BeginMain)], body);
    One(After(u, body), Main(EndMain));
    Glue(w, [Main(BeginMain)] + body, [Main(EndMain)]);
  }

  lemma MainPassIsHealthy(w: World)
    requires w.hyd.Some?
    ensures AllHealthy(MainReconciler.DestroyPassCalls(w))
  {
    var h := w.hyd.value;
    assert forall a | a in CleanupCalls(w.cfg, w.works, h.infraID) :: a.Main?;
    assert forall a | a in CloudCalls(w.cfg, h.infraID) :: a.Main?;
    assert forall a | a in DestroyCalls(w.cfg, h.finalizers, w.works, h.infraID) :: a.Main?;
  }

  // ---- every teardown ends -------------------------------------------------------------------------

  /** An undisturbed pass is possible whenever no other pass is in flight, and it leaves none in flight. */
  lemma PassIsRun(w: World, actor: Actor)
    requires Ending(w) && Idle(w)
    ensures Legal(w, PassOf(w, actor)) && AllHealthy(PassOf(w, actor)) && Idle(After(w, PassOf(w, actor)))
  {
    if w.hyd.Some? {
      match actor
      case MainReconciler => MainPass(w); MainPassIsHealthy(w);
      case ImportReconciler => ImportPass(w);
      case ImportController => ControllerPass(w);
      case WorkAgent => AgentPass(w, w.hyd.value.infraID);
    }
  }

  /** The pass of the actor whose turn it is makes progress. */
  lemma TurnLowers(w: World)
    requires Ending(w) && Idle(w) && w.hyd.Some?
    ensures var calls := PassOf(w, Turn(PhasesOf(w)));
            Legal(w, calls) && Measure(After(w, calls)) < Measure(w)
  {
    var actor := Turn(PhasesOf(w));
    PassIsRun(w, actor);
    NothingRaises(w, PassOf(w, actor));
    match actor
    case MainReconciler => MainPass(w); OnlyDestroyLeft(w);
    case ImportReconciler => ImportPass(w);
    case ImportController => ControllerPass(w);
    case WorkAgent => AgentPass(w, w.hyd.value.infraID);
  }

  lemma OnlyDestroyLeft(w: World)
    requires Ending(w) && w.hyd.Some? && ManagedClusterCleanup !in w.hyd.value.finalizers
    ensures w.hyd.value.finalizers == {Destroy}
  {
    assert forall f | f in w.hyd.value.finalizers :: f.Destroy?;
  }

  /** A stretch of a teardown: one actor's undisturbed pass, or anything else that leaves no pass in flight. */
  datatype Stretch = Pass(actor: Actor) | Meanwhile(steps: seq<Action>)

  function StepsOf(w: World, s: Stretch): seq<Action> {
    match s
    case Pass(actor) => PassOf(w, actor)
    case Meanwhile(steps) => steps
  }

  function Then(w: World, s: Stretch): World {
    if Legal(w, StepsOf(w, s)) then After(w, StepsOf(w, s)) else w
  }

  function Finally(w: World, play: seq<Stretch>): World
    decreases |play|
  {
    if play == [] then w else Finally(Then(w, play[0]), play[1..])
  }

  /** What happens meanwhile are healthy steps: passes that fail half-way, other actors' steps, in any order. */
  predicate Plays(w: World, play: seq<Stretch>)
    decreases |play|
  {
    play == []
    || ((play[0].Meanwhile? ==> Legal(w, play[0].steps) && AllHealthy(play[0].steps) && Idle(After(w, play[0].steps)))
        && Plays(Then(w, play[0]), play[1..]))
  }

  lemma StretchNeverRaises(w: World, s: Stretch)
    requires Ending(w) && Idle(w) && Plays(w, [s])
    ensures Ending(Then(w, s)) && Idle(Then(w, s)) && Measure(Then(w, s)) <= Measure(w)
    ensures w.hyd.None? ==> Then(w, s).hyd.None?
    ensures w.hyd.Some? && Then(w, s).hyd.Some? ==> NoHigher(PhasesOf(Then(w, s)), PhasesOf(w))
  {
    if s.Pass? {
      PassIsRun(w, s.actor);
    }
    NothingRaises(w, StepsOf(w, s));
  }

  lemma {:induction false} PlayNeverRaises(w: World, play: seq<Stretch>)
    requires Ending(w) && Idle(w) && Plays(w, play)
    ensures Ending(Finally(w, play)) && Idle(Finally(w, play)) && Measure(Finally(w, play)) <= Measure(w)
    ensures w.hyd.None? ==> Finally(w, play).hyd.None?
    decreases |play|
  {
    if play != [] {
      StretchNeverRaises(w, play[0]);
      PlayNeverRaises(Then(w, play[0]), play[1..]);
    }
  }

  /** As soon as the actor whose turn it is gets an undisturbed pass, there is less to do. */
  lemma {:induction false} TurnComes(w: World, play: seq<Stretch>)
    requires Ending(w) && Idle(w) && w.hyd.Some? && Plays(w, play)
    requires Pass(Turn(PhasesOf(w))) in play
    ensures Measure(Finally(w, play)) < Measure(w)
    decreases |play|
  {
    var v := Then(w, play[0]);
    StretchNeverRaises(w, play[0]);
    PlayNeverRaises(v, play[1..]);
    TurnLowers(w);
    if Measure(v) == Measure(w) {
      HeldIsPositive(w);
      assert PhasesOf(v) == PhasesOf(w);
      TurnComes(v, play[1..]);
    }
  }

  lemma HeldIsPositive(w: World)
    requires Ending(w) && w.hyd.Some?
    ensures Measure(w) > 0
  {
    if ManagedClusterCleanup !in w.hyd.value.finalizers {
      OnlyDestroyLeft(w);
    }
  }

  predicate IsRound(play: seq<Stretch>) {
    forall actor: Actor :: Pass(actor) in play
  }

  function AfterRounds(w: World, rounds: seq<seq<Stretch>>): World
    decreases |rounds|
  {
    if rounds == [] then w else AfterRounds(Finally(w, rounds[0]), rounds[1..])
  }

  predicate PlaysRounds(w: World, rounds: seq<seq<Stretch>>)
    decreases |rounds|
  {
    rounds == [] || (IsRound(rounds[0]) && Plays(w, rounds[0]) && PlaysRounds(Finally(w, rounds[0]), rounds[1..]))
  }

  /**
   Every teardown ends. In a round each of the four actors gets at least one undisturbed pass, in any
   order, and anything healthy may happen before, between and after. After as many rounds as the
   measure says, and so after 14 at the most, the deployment is gone.
   */
  lemma {:induction false} TeardownEnds(w: World, rounds: seq<seq<Stretch>>)
    requires Ending(w) && Idle(w) && PlaysRounds(w, rounds)
    requires |rounds| >= Measure(w)
    ensures AfterRounds(w, rounds).hyd.None?
    decreases |rounds|
  {
    if w.hyd.Some? {
      HeldIsPositive(w);
      TurnComes(w, rounds[0]);
    }
    if rounds != [] {
      PlayNeverRaises(w, rounds[0]);
      TeardownEnds(Finally(w, rounds[0]), rounds[1..]);
    }
  }

  /** From any state a run can reach: once deletion has settled and no pass is in flight, 14 rounds are enough. */
  lemma ReachableTeardownEnds(w0: World, run: seq<Action>, rounds: seq<seq<Stretch>>)
    requires Initial(w0) && Legal(w0, run)
    requires var w := After(w0, run); w.hyd.Some? && w.hyd.value.deleting && Idle(w)
    requires PlaysRounds(After(w0, run), rounds) && |rounds| >= 14
    ensures AfterRounds(After(w0, run), rounds).hyd.None?
  {
    Guarantees.ReachableInv(w0, run);
    TeardownEnds(After(w0, run), rounds);
  }

  predicate IsQuiet(play: seq<Stretch>) {
    forall s | s in play :: s.Pass?
  }

  /** Rounds of passes alone are always possible: nothing stops the four actors from taking their passes. */
  lemma {:induction false} QuietRoundsPlay(w: World, rounds: seq<seq<Stretch>>)
    requires forall r | r in rounds :: IsRound(r) && IsQuiet(r)
    ensures PlaysRounds(w, rounds)
    decreases |rounds|
  {
    if rounds != [] {
      assert rounds[0] in rounds && forall r | r in rounds[1..] :: r in rounds;
      PassesPlay(w, rounds[0]);
      QuietRoundsPlay(Finally(w, rounds[0]), rounds[1..]);
    }
  }

  lemma {:induction false} PassesPlay(w: World, play: seq<Stretch>)
    requires IsQuiet(play)
    ensures Plays(w, play)
    decreases |play|
  {
    if play != [] {
      assert play[0] in play && forall s | s in play[1..] :: s in play;
      PassesPlay(Then(w, play[0]), play[1..]);
    }
  }
}
