/**
 Reconcile of the main reconciler, from reading the deployment to the last call of the pass. Whatever
 the other actors do between its calls and whichever of them fail, the pass takes only steps of the
 lifecycle; in a calm environment it takes exactly the steps a healthy teardown needs, or leaves the
 ManifestWork with the assembled payload.
 */
module MainReconciler {
  import opened Wrappers
  import opened Api
  import opened Payload
  import opened Lifecycle
  import opened HubModel
  import opened MainTeardown
  import opened MainCreation
  import opened RoleMigration

  /** What one pass gets from generators, the cloud and the reads of the loaders. */
  datatype Environment = Environment(
    suffix: string,
    uuid: string,
    infraOut: InfraOutput,
    iamOut: IamOutput,
    inputs: Inputs)

  // ---- the calls of a healthy pass over a deleting deployment ---------------------------------------

  /** The patch that migrates deprecated roles, if there are any. */
  function RoleCalls(cluster: Option<HostedClusterSpec>): seq<Action> {
    if HasDeprecatedRoles(cluster) then [Main(MigrateRoles)] else []
  }

  function Migrated(cluster: Option<HostedClusterSpec>): Option<HostedClusterSpec> {
    if HasDeprecatedRoles(cluster) then Some(MigratedSpec(cluster.value)) else cluster
  }

  /** The provider secret is read to build something, and for a cluster on Azure. */
  predicate NeedsSecret(cfg: Config, cluster: Option<HostedClusterSpec>) {
    cfg.configure || (cluster.Some? && cluster.value.azureCredentials.Some?)
  }

  /** The status write that records whether the provider secret could be read. */
  function SecretCalls(cfg: Config, cluster: Option<HostedClusterSpec>): seq<Action> {
    if NeedsSecret(cfg, cluster) then [Main(TouchStatus)] else []
  }

  function FirstCalls(cfg: Config, hyd: Hyd): seq<Action> {
    RoleCalls(hyd.cluster) + SecretCalls(cfg, hyd.cluster)
  }

  /** Without the destroy finalizer the pass tries to add it, which a deleting object refuses. */
  function PassCalls(cfg: Config, hyd: Hyd, works: map<string, Work>): seq<Action> {
    FirstCalls(cfg, hyd) + if Destroy in hyd.finalizers then DestroyCalls(cfg, hyd.finalizers, works, hyd.infraID) else []
  }

  function DestroyPassCalls(w: World): seq<Action>
    requires w.hyd.Some?
  {
    [Main(BeginMain)] + PassCalls(w.cfg, w.hyd.value, w.works) + [Main(EndMain)]
  }

  /** The infra id a pass works with. */
  function IdFor(cfg: Config, hyd: Hyd, suffix: string): string {
    if hyd.infraID == "" then cfg.name + "-" + suffix else hyd.infraID
  }

  /** The deployment once roles are migrated and the infra id is recorded. */
  function Named(cfg: Config, hyd: Hyd, suffix: string): Hyd {
    hyd.(infraID := IdFor(cfg, hyd, suffix), cluster := Migrated(hyd.cluster))
  }

  /** Nothing stops a healthy pass before the work. */
  predicate CanDeploy(cfg: Config, hyd: Hyd, env: Environment)
    requires env.infraOut.zones != []
  {
    && cfg.override != InfraOnly
    && (cfg.configure ==> cfg.region != "" && Built(cfg, hyd, env.infraOut, env.iamOut, env.uuid).Some?)
  }

  /** The spec at the gate. */
  function SpecAtGate(cfg: Config, hyd: Hyd, env: Environment): Spec
    requires env.infraOut.zones != [] && CanDeploy(cfg, hyd, env)
  {
    if cfg.configure then Built(cfg, hyd, env.infraOut, env.iamOut, env.uuid).value else SpecOf(hyd)
  }

  /** What of a live deployment decides its spec. */
  predicate SameInputs(h: Hyd, k: Hyd) {
    k.deleting == h.deleting && k.infraID == h.infraID && SpecOf(k) == SpecOf(h)
    && k.infraReady == h.infraReady && k.iamReady == h.iamReady
  }

  /** What a healthy pass leaves, from the deployment as the pass read it. */
  ghost predicate DeployedFrom(hyd: Hyd, works: map<string, Work>, w: World, env: Environment)
    requires env.infraOut.zones != [] && CanDeploy(w.cfg, Named(w.cfg, hyd, env.suffix), env)
  {
    var named := Named(w.cfg, hyd, env.suffix);
    Deployed(named.infraID, Completed(SpecAtGate(w.cfg, named, env), env.uuid), works, w, env.inputs)
  }

  // ---- the calls of a healthy pass over a live deployment -------------------------------------------

  /** From the gate on; a pass that only builds infrastructure, or meets a gate that is shut, ends there. */
  ghost function AfterGate(cfg: Config, hyd: Hyd, works: map<string, Work>, env: Environment): seq<Action>
    requires env.infraOut.zones != []
  {
    if !CanDeploy(cfg, hyd, env) then []
    else DeployCalls(hyd.infraID, SpecAtGate(cfg, hyd, env), works, env.uuid, env.inputs)
  }

  function BeforeGate(cfg: Config, hyd: Hyd, env: Environment): seq<Action>
    requires env.infraOut.zones != []
  {
    if cfg.configure then BuildCalls(cfg, hyd, env.infraOut, env.iamOut, env.uuid)
    else [Main(MarkIam(false)), Main(MarkInfra(false))]
  }

  lemma CallsFromInputs(cfg: Config, h: Hyd, k: Hyd, works: map<string, Work>, env: Environment)
    requires env.infraOut.zones != [] && SameInputs(h, k)
    ensures BeforeGate(cfg, h, env) == BeforeGate(cfg, k, env)
    ensures AfterGate(cfg, h, works, env) == AfterGate(cfg, k, works, env)
    ensures CanDeploy(cfg, h, env) <==> CanDeploy(cfg, k, env)
    ensures CanDeploy(cfg, h, env) ==> SpecAtGate(cfg, h, env) == SpecAtGate(cfg, k, env)
  {
  }

  function PersistCalls(cfg: Config, hyd: Hyd, suffix: string): seq<Action> {
    if Destroy in hyd.finalizers then [] else [Main(PersistId(IdFor(cfg, hyd, suffix)))]
  }

  ghost function CreateCalls(cfg: Config, hyd: Hyd, works: map<string, Work>, env: Environment): seq<Action>
    requires env.infraOut.zones != []
  {
    var named := Named(cfg, hyd, env.suffix);
    (FirstCalls(cfg, hyd) + PersistCalls(cfg, hyd, env.suffix))
    + (BeforeGate(cfg, named, env) + AfterGate(cfg, named, works, env))
  }

  ghost function CreatePassCalls(w: World, env: Environment): seq<Action>
    requires w.hyd.Some? && env.infraOut.zones != []
  {
    [Main(BeginMain)] + CreateCalls(w.cfg, w.hyd.value, w.works, env) + [Main(EndMain)]
  }

  /** Storing a copy whose roles are migrated is the migration of the stored object. */
  lemma PatchIsMigration(w: World, hyd: Hyd)
    requires Rewriting(w) && w.hyd.Some? && HydRely(true, Some(hyd), w.hyd) && HasDeprecatedRoles(hyd.cluster)
    ensures MainEnabled(w, MigrateRoles)
    ensures MainApply(w, MigrateRoles).hyd == Some(Overwritten(w.hyd.value, hyd.(cluster := Migrated(hyd.cluster))))
    ensures !HasDeprecatedRoles(Migrated(hyd.cluster))
    ensures w.hyd == Some(hyd) ==>
              SameSpec(Some(hyd.(cluster := Migrated(hyd.cluster))), MainApply(w, MigrateRoles).hyd)
  {
  }

  class Reconciler {
    const hub: Hub
    const calm: bool
    var hyd: Hyd

    constructor (hub: Hub, calm: bool, hyd: Hyd)
      ensures this.hub == hub && this.calm == calm && this.hyd == hyd
    {
      this.hub := hub;
      this.calm := calm;
      this.hyd := hyd;
    }

    /** The copy was read in this pass, and since then the others did only what the pass can rely on. */
    ghost predicate Synced()
      reads this, hub
    {
      && hub.Valid() && hub.w.main != MainIdle
      && (hub.w.main == Destroying ==> hyd.deleting)
      && HydRely(hub.w.main == Creating || HasDeprecatedRoles(hyd.cluster), Some(hyd), hub.w.hyd)
    }

    /** migrateAWSRoles, and the patch after it. */
    method MigrateDeprecatedRoles() returns (ok: bool)
      requires Synced()
      modifies this`hyd, hub
      ensures hub.Valid() && hub.w.cfg == old(hub.w.cfg) && hub.w.main == old(hub.w.main)
      ensures ok ==> Synced() && !HasDeprecatedRoles(hyd.cluster)
      ensures old(hub.run) <= hub.run
      ensures calm && old(hub.w.hyd) == Some(old(hyd)) ==>
                && ok && hub.run == old(hub.run) + RoleCalls(old(hyd).cluster)
                && hub.w.hyd == Some(hyd) && hub.w.works == old(hub.w.works)
                && SameSpec(Some(old(hyd).(cluster := Migrated(old(hyd).cluster))), Some(hyd))
    {
      if HasDeprecatedRoles(hyd.cluster) {
        ok := PatchRoles();
      } else {
        ok := true;
      }
    }

    method PatchRoles() returns (ok: bool)
      requires Synced() && HasDeprecatedRoles(hyd.cluster)
      modifies this`hyd, hub
      ensures hub.Valid() && hub.w.cfg == old(hub.w.cfg) && hub.w.main == old(hub.w.main)
      ensures ok ==> hub.w.hyd == Some(hyd) && !HasDeprecatedRoles(hyd.cluster) && (hub.w.main == Destroying ==> hyd.deleting)
      ensures old(hub.run) <= hub.run
      ensures calm && old(hub.w.hyd) == Some(old(hyd)) ==>
                && ok && hub.run == old(hub.run) + [Main(MigrateRoles)] && hub.w.works == old(hub.w.works)
                && SameSpec(Some(old(hyd).(cluster := Migrated(old(hyd).cluster))), Some(hyd))
    {
      hub.InterfereWithMain(calm);
      var o := Call(calm);
      if o == NoEffect || hub.w.hyd == None {
        return false;
      }
      PatchIsMigration(hub.w, hyd);
      hub.Do(Main(MigrateRoles));
      if o != Acknowledged {
        return false;
      }
      hyd := hub.w.hyd.value;
      return true;
    }

    /** A status write that is not one of the gates. */
    method TouchDeployment() returns (ok: bool)
      requires Synced() && !HasDeprecatedRoles(hyd.cluster)
      modifies this`hyd, hub
      ensures Synced() && hub.w.cfg == old(hub.w.cfg) && hub.w.main == old(hub.w.main)
      ensures !HasDeprecatedRoles(hyd.cluster)
      ensures old(hub.run) <= hub.run
      ensures calm && old(hub.w.hyd) == Some(old(hyd)) ==>
                && ok && hub.run == old(hub.run) + [Main(TouchStatus)]
                && hub.w.hyd == Some(hyd) && SameSpec(old(hub.w.hyd), hub.w.hyd)
                && hub.w.works == old(hub.w.works)
    {
      hub.InterfereWithMain(calm);
      var o := Call(calm);
      if o == NoEffect || hub.w.hyd == None {
        return false;
      }
      hub.Do(Main(TouchStatus));
      if o == Acknowledged {
        hyd := hub.w.hyd.value;
      }
      return o == Acknowledged;
    }

    /** Reading the provider secret, and the status write that says whether that worked. */
    method GetProviderSecret() returns (ok: bool)
      requires Synced() && !HasDeprecatedRoles(hyd.cluster)
      modifies this`hyd, hub
      ensures Synced() && hub.w.cfg == old(hub.w.cfg) && hub.w.main == old(hub.w.main)
      ensures !HasDeprecatedRoles(hyd.cluster)
      ensures old(hub.run) <= hub.run
      ensures calm && old(hub.w.hyd) == Some(old(hyd)) ==>
                && ok && hub.run == old(hub.run) + SecretCalls(old(hub.w.cfg), old(hyd).cluster)
                && hub.w.hyd == Some(hyd) && SameSpec(old(hub.w.hyd), hub.w.hyd)
                && hub.w.works == old(hub.w.works)
    {
      if !NeedsSecret(hub.w.cfg, hyd.cluster) {
        return true;
      }
      var found := Succeeds(calm);
      var changes := Succeeds(calm);
      if !changes {
        return found;
      }
      var written := TouchDeployment();
      return found && written;
    }

    /** What every pass does first: the deprecated roles, and then the provider secret. */
    method Start() returns (ok: bool)
      requires Synced()
      modifies this`hyd, hub
      ensures hub.Valid() && hub.w.cfg == old(hub.w.cfg) && hub.w.main == old(hub.w.main)
      ensures ok ==> Synced() && !HasDeprecatedRoles(hyd.cluster)
      ensures old(hub.run) <= hub.run
      ensures calm && old(hub.w.hyd) == Some(old(hyd)) ==>
                && ok && hub.run == old(hub.run) + FirstCalls(hub.w.cfg, old(hyd))
                && hub.w.hyd == Some(hyd) && hub.w.works == old(hub.w.works)
                && SameSpec(Some(old(hyd).(cluster := Migrated(old(hyd).cluster))), Some(hyd))
    {
      Chained(hub.run, RoleCalls(hyd.cluster), SecretCalls(hub.w.cfg, hyd.cluster));
      ok := MigrateDeprecatedRoles();
      if ok {
        ok := GetProviderSecret();
      }
    }

    /** The first write of a deployment's life: infra id and destroy finalizer in one patch. */
    method PersistInfraId(suffix: string) returns (ok: bool)
      requires Synced() && !HasDeprecatedRoles(hyd.cluster)
      modifies this`hyd, hub
      ensures hub.Valid() && hub.w.main == old(hub.w.main) && hub.w.cfg == old(hub.w.cfg)
      ensures ok ==> Synced() && Destroy in hyd.finalizers && !HasDeprecatedRoles(hyd.cluster)
      ensures old(hub.run) <= hub.run
      ensures Destroy in old(hyd).finalizers ==> ok && hyd == old(hyd) && hub.run == old(hub.run) && hub.w == old(hub.w)
      ensures Destroy !in old(hyd).finalizers && old(hyd).deleting ==> !ok && (calm ==> hub.run == old(hub.run))
      ensures ok ==> hyd.infraID == IdFor(hub.w.cfg, old(hyd), suffix)
      ensures calm && !old(hyd).deleting && old(hub.w.hyd) == Some(old(hyd)) ==>
                && ok && hub.w.hyd == Some(hyd) && hub.w.works == old(hub.w.works)
                && hub.run == old(hub.run) + PersistCalls(hub.w.cfg, old(hyd), suffix)
                && SameInputs(old(hyd).(infraID := IdFor(hub.w.cfg, old(hyd), suffix)), hyd)
    {
      if Destroy in hyd.finalizers {
        // The id is recorded then, and there is no default to fill in.
        hub.Reachable();
        return true;
      }
      var id := IdFor(hub.w.cfg, hyd, suffix);
      hub.InterfereWithMain(calm);
      var o := Call(calm);
      if o == NoEffect || hub.w.hyd == None || hub.w.hyd.value.deleting {
        return false;
      }
      ghost var copy := hyd.(infraID := id, finalizers := hyd.finalizers + {Destroy});
      assert MainApply(hub.w, PersistId(id)).hyd == Some(Overwritten(hub.w.hyd.value, copy));
      hub.Do(Main(PersistId(id)));
      if o != Acknowledged {
        return false;
      }
      hyd := hub.w.hyd.value;
      return true;
    }

    /** The teardown of a deployment that the copy says is deleting. */
    method TearDown()
      requires Synced() && hyd.deleting && Destroy in hyd.finalizers && !HasDeprecatedRoles(hyd.cluster)
      modifies this`hyd, hub
      ensures hub.Valid() && hub.w.main == Destroying
      ensures old(hub.run) <= hub.run
      ensures calm && old(hub.w.main) == Destroying && old(hub.w.hyd) == Some(old(hyd)) ==>
                hub.run == old(hub.run) + DestroyCalls(old(hub.w).cfg, old(hyd).finalizers, old(hub.w).works, old(hyd).infraID)
    {
      if hub.w.main == Creating {
        // The pass began on a live deployment and learned of the deletion from a response.
        hub.Do(Main(EndMain));
        hub.Do(Main(BeginMain));
      }
      var destroyer := new Destroyer(hub, calm, hyd);
      destroyer.DestroyHypershift();
    }

    /** Building what is to be built, and writing the work once the gate is open. */
    method Deploy(env: Environment)
      requires Synced() && hub.w.main == Creating && Destroy in hyd.finalizers
      requires env.infraOut.zones != [] && InputsFit(hub.w.cfg, env.inputs)
      modifies hub
      ensures hub.Valid() && hub.w.main == Creating && hub.w.cfg == old(hub.w.cfg)
      ensures old(hub.run) <= hub.run
      ensures calm ==>
                hub.run == old(hub.run) + (BeforeGate(old(hub.w).cfg, hyd, env) + AfterGate(old(hub.w).cfg, hyd, old(hub.w).works, env))
      ensures calm && CanDeploy(old(hub.w.cfg), hyd, env) ==>
                Deployed(hyd.infraID, Completed(SpecAtGate(old(hub.w).cfg, hyd, env), env.uuid), old(hub.w).works, hub.w,
                         env.inputs)
    {
      Chained(hub.run, BeforeGate(hub.w.cfg, hyd, env), AfterGate(hub.w.cfg, hyd, hub.w.works, env));
      var creator := new Creator(hub, calm, hyd);
      if hub.w.cfg.configure {
        var stop := creator.CreateAwsInfra(env.infraOut, env.iamOut, env.uuid);
        if stop {
          return;
        }
      } else {
        creator.MarkNotApplicable();
      }
      if hub.w.cfg.override == InfraOnly {
        return;
      }
      if !hub.w.cfg.configure || (creator.hyd.infraReady && creator.hyd.iamReady) {
        creator.DeployWork(env.uuid, env.inputs);
      }
    }

    /** All that precedes the teardown or the build: roles, provider secret, and then id and finalizer. */
    method Prepare(suffix: string) returns (ok: bool)
      requires Synced()
      modifies this`hyd, hub
      ensures hub.Valid() && hub.w.main == old(hub.w.main) && hub.w.cfg == old(hub.w.cfg)
      ensures ok ==> Synced() && Destroy in hyd.finalizers && !HasDeprecatedRoles(hyd.cluster)
      ensures old(hub.run) <= hub.run
      ensures calm && old(hub.w.hyd) == Some(old(hyd)) ==>
                && ok == (Destroy in old(hyd).finalizers || !old(hyd).deleting)
                && hub.run == old(hub.run) + (if old(hyd).deleting then FirstCalls(hub.w.cfg, old(hyd))
                                              else FirstCalls(hub.w.cfg, old(hyd)) + PersistCalls(hub.w.cfg, old(hyd), suffix))
                && (ok ==> hub.w.hyd == Some(hyd) && hub.w.works == old(hub.w.works)
                           && SameInputs(Named(hub.w.cfg, old(hyd), suffix), hyd))
                && (ok && old(hyd).deleting ==> hyd.finalizers == old(hyd).finalizers && hyd.infraID == old(hyd).infraID)
    {
      Chained(hub.run, FirstCalls(hub.w.cfg, hyd), PersistCalls(hub.w.cfg, hyd, suffix));
      ok := Start();
      if ok {
        ok := PersistInfraId(suffix);
      }
    }

    /** The pass between its first read and its end. */
    method Pass(env: Environment)
      requires Synced() && env.infraOut.zones != [] && InputsFit(hub.w.cfg, env.inputs)
      modifies this`hyd, hub
      ensures hub.Valid() && hub.w.main != MainIdle
      ensures old(hub.run) <= hub.run
      ensures calm && old(hub.w.hyd) == Some(old(hyd)) && old(hyd).deleting && old(hub.w.main) == Destroying ==>
                hub.run == old(hub.run) + PassCalls(old(hub.w).cfg, old(hyd), old(hub.w).works)
      ensures calm && old(hub.w.hyd) == Some(old(hyd)) && !old(hyd).deleting && old(hub.w.main) == Creating ==>
                && hub.run == old(hub.run) + CreateCalls(old(hub.w).cfg, old(hyd), old(hub.w).works, env)
                && hub.w.cfg == old(hub.w.cfg)
                && (CanDeploy(hub.w.cfg, Named(hub.w.cfg, old(hyd), env.suffix), env) ==>
                      DeployedFrom(old(hyd), old(hub.w).works, hub.w, env))
    {
      var ok := Prepare(env.suffix);
      if !ok {
        return;
      }
      if hyd.deleting {
        ghost var calls := DestroyCalls(hub.w.cfg, hyd.finalizers, hub.w.works, hyd.infraID);
        Chained(old(hub.run), FirstCalls(hub.w.cfg, old(hyd)), calls);
        TearDown();
      } else {
        if calm && old(hub.w.hyd) == Some(old(hyd)) {
          CallsFromInputs(hub.w.cfg, Named(hub.w.cfg, old(hyd), env.suffix), hyd, hub.w.works, env);
          Chained(old(hub.run), FirstCalls(hub.w.cfg, old(hyd)) + PersistCalls(hub.w.cfg, old(hyd), env.suffix),
                  BeforeGate(hub.w.cfg, hyd, env) + AfterGate(hub.w.cfg, hyd, hub.w.works, env));
        }
        Deploy(env);
      }
    }
  }

  /** One pass, from the moment the deployment was read. */
  method RunPass(hub: Hub, calm: bool, env: Environment)
    requires hub.Valid() && hub.w.hyd.Some? && MainEnabled(hub.w, BeginMain)
    requires env.infraOut.zones != [] && InputsFit(hub.w.cfg, env.inputs)
    modifies hub
    ensures hub.Valid() && hub.w.main == MainIdle
    ensures old(hub.run) <= hub.run
    ensures calm && old(hub.w.hyd).value.deleting ==> hub.run == old(hub.run) + DestroyPassCalls(old(hub.w))
    ensures calm && !old(hub.w.hyd).value.deleting ==> Created(old(hub.w), old(hub.run), hub.w, hub.run, env)
  {
    Bracketed(hub.run, Main(BeginMain), PassCalls(hub.w.cfg, hub.w.hyd.value, hub.w.works), Main(EndMain));
    Bracketed(hub.run, Main(BeginMain), CreateCalls(hub.w.cfg, hub.w.hyd.value, hub.w.works, env), Main(EndMain));
    hub.Do(Main(BeginMain));
    var reconciler := new Reconciler(hub, calm, hub.w.hyd.value);
    reconciler.Pass(env);
    hub.Do(Main(EndMain));
  }

  /** A healthy pass over a live deployment made exactly its calls, and deployed if nothing stops it. */
  ghost predicate Created(w: World, run: seq<Action>, v: World, longer: seq<Action>, env: Environment)
    requires w.hyd.Some? && env.infraOut.zones != []
  {
    && longer == run + CreatePassCalls(w, env)
    && v.cfg == w.cfg
    && (CanDeploy(v.cfg, Named(v.cfg, w.hyd.value, env.suffix), env) ==> DeployedFrom(w.hyd.value, w.works, v, env))
  }

  /** Reconcile, if it gets its turn: a pass that rewrites the deployment is not interleaved with an import pass. */
  method Reconcile(hub: Hub, calm: bool, env: Environment)
    requires hub.Valid() && hub.w.main == MainIdle
    requires env.infraOut.zones != [] && InputsFit(hub.w.cfg, env.inputs)
    modifies hub
    ensures hub.Valid() && hub.w.main == MainIdle
    ensures old(hub.run) <= hub.run
    ensures calm && old(hub.w.hyd).Some? && MainEnabled(old(hub.w), BeginMain) ==>
              if old(hub.w.hyd).value.deleting then hub.run == old(hub.run) + DestroyPassCalls(old(hub.w))
              else Created(old(hub.w), old(hub.run), hub.w, hub.run, env)
  {
    hub.InterfereWithMain(calm);
    var readable := Succeeds(calm);
    if readable && MainEnabled(hub.w, BeginMain) {
      RunPass(hub, calm, env);
    }
  }
}
