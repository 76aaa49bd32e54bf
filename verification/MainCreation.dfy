/**
 The main reconciler on a live deployment: building the AWS infrastructure and IAM behind the two gate
 conditions, completing the spec, and writing the ManifestWork.
 */
module MainCreation {
  import opened Wrappers
  import opened Api
  import opened Payload
  import opened Lifecycle
  import opened Invariant
  import opened HubModel
  import opened RoleMigration
  import Scaffold

  /** The stored object with the same spec and metadata, whatever its status writes. */
  predicate SameSpec(h: Option<Hyd>, k: Option<Hyd>) {
    h.Some? && k.Some? && k.value == h.value.(version := k.value.version)
  }

  /** The part of the deployment's spec that a pass completes and deploys. */
  datatype Spec = Spec(cluster: Option<HostedClusterSpec>, pools: seq<NodePool>)

  function SpecOf(hyd: Hyd): Spec {
    Spec(hyd.cluster, hyd.pools)
  }

  /** The hosted cluster spec after scaffolding from the infrastructure's output. */
  function Scaffolded(cfg: Config, hyd: Hyd, out: InfraOutput, uuid: string): (r: HostedClusterSpec)
    requires out.zones != []
    ensures r.aws.Some?
  {
    Scaffold.AwsScaffold(hyd.cluster, cfg.name, hyd.infraID, cfg.configure, cfg.region, out, uuid)
  }

  /** The node pools after scaffolding; none where the source would index a zone that does not exist. */
  function PoolsFor(cfg: Config, hyd: Hyd, spec: HostedClusterSpec, out: InfraOutput): Option<seq<NodePool>> {
    if Scaffold.IndexSafe(Scaffold.StartingPools(hyd.pools, cfg.name, Some(spec), out.zones), out.zones)
    then Some(Scaffold.ScaffoldedPools(hyd.pools, cfg.name, hyd.infraID, Some(spec), out))
    else None
  }

  /** The spec after createAWSInfra: scaffolded and with the IAM run's output, unless both gates were open. */
  function Built(cfg: Config, hyd: Hyd, infraOut: InfraOutput, iamOut: IamOutput, uuid: string): Option<Spec>
    requires infraOut.zones != []
  {
    if hyd.infraReady && hyd.iamReady then Some(SpecOf(hyd))
    else
      var spec := Scaffolded(cfg, hyd, infraOut, uuid);
      var pools := PoolsFor(cfg, hyd, spec, infraOut);
      if pools.None? then None else Some(Spec(Some(WithIam(spec, iamOut)), pools.value))
  }

  /** The spec with cluster id and catalog placement. */
  function Completed(spec: Spec, uuid: string): Spec {
    if spec.cluster.None? then spec
    else
      var hc := spec.cluster.value;
      spec.(cluster := Some(hc.(clusterID := Scaffold.OrElse(hc.clusterID, uuid),
                                olmCatalogPlacement := Scaffold.OrElse(hc.olmCatalogPlacement, "management"))))
  }

  /** A cluster id and a placement of the user's are kept; nothing else changes. */
  lemma CompletedKeepsSettings(spec: Spec, hc: HostedClusterSpec, uuid: string)
    requires spec.cluster == Some(hc)
    ensures Completed(spec, uuid)
         == spec.(cluster := Some(hc.(
                      clusterID := if hc.clusterID != "" then hc.clusterID else uuid,
                      olmCatalogPlacement := if hc.olmCatalogPlacement != "" then hc.olmCatalogPlacement else "management")))
    ensures Completed(spec.(cluster := None), uuid) == spec.(cluster := None)
  {
  }

  /** The payload stored under an infra id, or nothing. */
  function StoredUnder(works: map<string, Work>, id: string): seq<Manifest> {
    if id in works then works[id].spec.payload else []
  }

  /** The loaders' inputs once the pass has completed the stored spec. */
  function WithSpec(inp: Inputs, spec: Spec): Inputs {
    inp.(ownCluster := if spec.cluster.Some? then spec.cluster.value else inp.ownCluster, ownPools := spec.pools)
  }

  /** The validation loop over the deployment's own pools. */
  predicate PoolsMatch(name: string, spec: Spec) {
    spec.cluster.Some? ==> forall np | np in spec.pools :: Scaffold.PoolMatches(name, spec.cluster.value, np)
  }

  /** The inputs are those of this deployment. */
  predicate InputsFit(cfg: Config, inp: Inputs) {
    && inp.name == cfg.name && inp.configure == cfg.configure
    && inp.hostingNamespace == cfg.hostingNamespace && ByReference(inp) == cfg.byReference
  }

  /** What a run of the loaders over a stored payload leaves: a payload, unless one of them fails. */
  ghost function LoadedFrom(inp: Inputs, stored: seq<Manifest>): Option<seq<Manifest>> {
    if Assembles(inp, stored) then Some(Assembled(inp, stored)) else None
  }

  /**
   What a healthy pass over a live deployment leaves: the id, the finalizer and the spec, both gates open
   if it configures the platform, and in the work what the loaders assemble from this spec and the
   payload stored before, if the pools match and the loaders accept them.
   */
  ghost predicate Deployed(id: string, spec: Spec, works: map<string, Work>, w: World, inp: Inputs) {
    && Holds(w, id)
    && SpecOf(w.hyd.value) == spec
    && (w.cfg.configure ==> w.hyd.value.infraReady && w.hyd.value.iamReady)
    && var loaded := LoadedFrom(WithSpec(inp, spec), StoredUnder(works, id));
       (spec.cluster.Some? || ByReference(inp)) && PoolsMatch(inp.name, spec) && loaded.Some? ==>
         id in w.works && loaded == Some(w.works[id].spec.payload)
  }

  // ---- the calls of a healthy pass -----------------------------------------------------------------

  /** Scaffolding that indexes a zone that does not exist ends the pass on the spot. */
  function InfraCalls(id: string, spec: HostedClusterSpec, pools: Option<seq<NodePool>>): seq<Action> {
    [Main(MarkInfra(false)), Main(CreateInfra(id, Full))]
    + if pools.None? then [] else [Main(RecordInfra(spec, pools.value)), Main(MarkInfra(true))]
  }

  function IamCalls(id: string, out: IamOutput): seq<Action> {
    [Main(MarkIam(false)), Main(CreateIam(id, FullIam(out))), Main(RecordIam(out)), Main(MarkIam(true))]
  }

  /** createAWSInfra: nothing if both gates are open, and only a condition if the region is missing. */
  function BuildCalls(cfg: Config, hyd: Hyd, infraOut: InfraOutput, iamOut: IamOutput, uuid: string): seq<Action>
    requires infraOut.zones != []
  {
    if cfg.region == "" then [Main(MarkInfra(false))]
    else if hyd.infraReady && hyd.iamReady then []
    else
      var spec := Scaffolded(cfg, hyd, infraOut, uuid);
      var pools := PoolsFor(cfg, hyd, spec, infraOut);
      InfraCalls(hyd.infraID, spec, pools) + if pools.None? then [] else IamCalls(hyd.infraID, iamOut)
  }

  function DefaultCalls(spec: Spec, uuid: string): seq<Action> {
    if spec.cluster.None? || (spec.cluster.value.clusterID != "" && spec.cluster.value.olmCatalogPlacement != "") then []
    else
      var hc := Completed(spec, uuid).cluster.value;
      [Main(SetDefaults(hc.clusterID, hc.olmCatalogPlacement))]
  }

  function WriteCall(works: map<string, Work>, id: string, payload: seq<Manifest>): MainAction {
    if id in works then UpdateWork(id, payload) else CreateWork(id, payload)
  }

  /**
   Without a cluster spec, with pools that do not match, or with a reference that cannot be read, only a
   condition is written; any other loader that fails ends the pass without a call.
   */
  ghost function WorkCalls(id: string, spec: Spec, works: map<string, Work>, inp: Inputs): seq<Action> {
    if (spec.cluster.None? && !ByReference(inp)) || !PoolsMatch(inp.name, spec) then [Main(TouchStatus)]
    else
      var inputs := WithSpec(inp, spec);
      var loaded := LoadedFrom(inputs, StoredUnder(works, id));
      if loaded.Some? then [Main(WriteCall(works, id, loaded.value)), Main(TouchStatus)]
      else if ReferencesReadable(inputs) then []
      else [Main(TouchStatus)]
  }

  /** The cluster and pool references, where they are used, can be read. */
  predicate ReferencesReadable(inp: Inputs) {
    ChosenCluster(inp).Some? && PoolsReadable(inp)
  }

  ghost function DeployCalls(id: string, spec: Spec, works: map<string, Work>, uuid: string, inp: Inputs): seq<Action> {
    DefaultCalls(spec, uuid) + WorkCalls(id, Completed(spec, uuid), works, inp)
  }

  /** The loop over the loaders of createOrUpdateMainfestwork. */
  method RunLoaders(inp: Inputs, stored: seq<Manifest>) returns (payload: Option<seq<Manifest>>)
    ensures payload == LoadedFrom(inp, stored)
  {
    var builder := new Builder();
    var assembled := builder.Assemble(inp, stored);
    return if assembled then Some(builder.payload) else None;
  }

  class Creator {
    const hub: Hub
    const calm: bool
    var hyd: Hyd

    constructor (hub: Hub, calm: bool, hyd: Hyd)
      ensures this.hub == hub && this.calm == calm && this.hyd == hyd
    {
      this.hub := hub;
      this.calm := calm;
      this.hyd := hyd;
    }

    /** The copy's spec is the stored one. */
    ghost predicate Mirrored()
      reads this, hub
    {
      hub.w.hyd.Some? && SpecOf(hyd) == SpecOf(hub.w.hyd.value)
    }

    /**
     A creating pass over a held deployment: the copy's metadata are the stored ones, and a gate flag of
     the copy is never too optimistic.
     */
    ghost predicate InPass()
      reads this, hub
    {
      && hub.Valid() && hub.w.main == Creating && Holds(hub.w, hyd.infraID)
      && hyd.finalizers == hub.w.hyd.value.finalizers && hyd.createMc == hub.w.hyd.value.createMc
      && (hyd.infraReady ==> hub.w.hyd.value.infraReady) && (hyd.iamReady ==> hub.w.hyd.value.iamReady)
    }

    /** The build block: nothing is deployed yet and the IAM gate is shut. */
    ghost predicate InBuild()
      reads this, hub
    {
      InPass() && Building(hub.w, hyd.infraID)
    }

    /** A status write of the build block that shuts a gate; it is skipped if it would change nothing. */
    method WriteStatus(a: MainAction) returns (ok: bool)
      requires InBuild() && (a == MarkInfra(false) || a == MarkIam(false))
      modifies this`hyd, hub
      ensures InBuild() && hyd.infraID == old(hyd.infraID) && (old(Mirrored()) ==> Mirrored())
      ensures SpecOf(hub.w.hyd.value) == SpecOf(old(hub.w.hyd.value))
      ensures hub.w.cfg == old(hub.w.cfg) && hub.w.cloud == old(hub.w.cloud)
      ensures a == MarkIam(false) ==> hub.w.hyd.value.infraReady == old(hub.w.hyd.value.infraReady)
      ensures old(hub.run) <= hub.run
      ensures calm ==> ok && hub.run == old(hub.run) + [Main(a)] && (a == MarkInfra(false) ==> !hyd.infraReady)
    {
      // The copy's condition is set before the call.
      hyd := if a.MarkInfra? then hyd.(infraReady := false) else hyd.(iamReady := false);
      var changes := Succeeds(calm);
      if !changes {
        return true;
      }
      hub.InterfereWithMain(calm);
      var o := Call(calm);
      if o == NoEffect {
        return false;
      }
      hub.Do(Main(a));
      if o == Acknowledged {
        hyd := hub.w.hyd.value;
      }
      return o == Acknowledged;
    }

    /** The status write that opens the infrastructure gate; a failure ends the pass. */
    method OpenInfraGate() returns (ok: bool)
      requires InBuild() && Mirrored() && CloudOf(hub.w, hyd.infraID).infra == Full
      modifies this`hyd, hub
      ensures InBuild() && hyd.infraID == old(hyd.infraID) && hub.w.cfg == old(hub.w.cfg)
      ensures ok ==> InfraIsBuilt(SpecOf(old(hyd)))
      ensures old(hub.run) <= hub.run
      ensures calm ==> ok && hub.run == old(hub.run) + [Main(MarkInfra(true))]
    {
      hub.InterfereWithMain(calm);
      var o := Call(calm);
      if o == NoEffect {
        return false;
      }
      hub.Do(Main(MarkInfra(true)));
      if o == Acknowledged {
        hyd := hub.w.hyd.value;
      }
      return o == Acknowledged;
    }

    /** The AWS infrastructure creator; a failure may leave part of the infrastructure behind. */
    method CallInfraCreator() returns (ok: bool)
      requires InBuild()
      modifies hub
      ensures InBuild() && (old(Mirrored()) ==> Mirrored()) && hub.w.cfg == old(hub.w.cfg)
      ensures ok ==> CloudOf(hub.w, hyd.infraID).infra == Full
      ensures old(hub.run) <= hub.run
      ensures calm ==> ok && hub.run == old(hub.run) + [Main(CreateInfra(hyd.infraID, Full))]
    {
      hub.InterfereWithMain(calm);
      ok := Succeeds(calm);
      var stage := Full;
      if !ok {
        stage := CloudOf(hub.w, hyd.infraID).infra;
        var partly: bool := *;
        if partly {
          stage := Partial;
        }
      }
      hub.Do(Main(CreateInfra(hyd.infraID, stage)));
    }

    /** The IAM creator, likewise. */
    method CallIamCreator(out: IamOutput) returns (ok: bool)
      requires InBuild()
      modifies hub
      ensures InBuild() && (old(Mirrored()) ==> Mirrored()) && hub.w.cfg == old(hub.w.cfg)
      ensures ok ==> CloudOf(hub.w, hyd.infraID).iam == FullIam(out)
      ensures CloudOf(hub.w, hyd.infraID).infra == old(CloudOf(hub.w, hyd.infraID)).infra
      ensures hub.w.hyd.value.infraReady == old(hub.w.hyd.value.infraReady)
      ensures old(hub.run) <= hub.run
      ensures calm ==> ok && hub.run == old(hub.run) + [Main(CreateIam(hyd.infraID, FullIam(out)))]
    {
      hub.InterfereWithMain(calm);
      ok := Succeeds(calm);
      var iam := FullIam(out);
      if !ok {
        iam := CloudOf(hub.w, hyd.infraID).iam;
        var partly: bool := *;
        if partly {
          iam := PartialIam;
        }
      }
      hub.Do(Main(CreateIam(hyd.infraID, iam)));
    }

    /** The patch that stores the scaffolded spec: the server object takes over the copy's spec. */
    method PatchScaffold(spec: HostedClusterSpec, pools: seq<NodePool>) returns (ok: bool)
      requires InBuild() && !HasDeprecatedRoles(Some(spec))
      modifies this`hyd, hub
      ensures InBuild() && hyd.infraID == old(hyd.infraID)
      ensures ok ==> Mirrored() && SpecOf(hyd) == Spec(Some(spec), pools)
      ensures hub.w.cfg == old(hub.w.cfg) && hub.w.cloud == old(hub.w.cloud)
      ensures old(hub.run) <= hub.run
      ensures calm ==> ok && hub.run == old(hub.run) + [Main(RecordInfra(spec, pools))]
    {
      hyd := hyd.(cluster := Some(spec), pools := pools);
      hub.InterfereWithMain(calm);
      var o := Call(calm);
      if o == NoEffect {
        return false;
      }
      assert MainApply(hub.w, RecordInfra(spec, pools)).hyd == Some(Overwritten(hub.w.hyd.value, hyd));
      hub.Do(Main(RecordInfra(spec, pools)));
      if o == Acknowledged {
        hyd := hub.w.hyd.value;
      }
      return o == Acknowledged;
    }

    /** The patch that stores issuer URL and role ARNs. */
    method PatchIam(out: IamOutput) returns (ok: bool)
      requires InBuild() && Mirrored() && CloudOf(hub.w, hyd.infraID).iam == FullIam(out)
      requires hyd.cluster.Some? && hyd.cluster.value.aws.Some?
      modifies this`hyd, hub
      ensures InBuild() && hyd.infraID == old(hyd.infraID)
      ensures hub.w.cfg == old(hub.w.cfg) && hub.w.cloud == old(hub.w.cloud)
      ensures hub.w.hyd.value.infraReady == old(hub.w.hyd.value.infraReady)
      ensures ok ==> Mirrored() && SpecOf(hyd) == Spec(Some(WithIam(old(hyd).cluster.value, out)), old(hyd).pools)
      ensures old(hub.run) <= hub.run
      ensures calm ==> ok && hub.run == old(hub.run) + [Main(RecordIam(out))]
    {
      hyd := hyd.(cluster := Some(WithIam(hyd.cluster.value, out)));
      hub.InterfereWithMain(calm);
      var o := Call(calm);
      if o == NoEffect {
        return false;
      }
      assert MainApply(hub.w, RecordIam(out)).hyd == Some(Overwritten(hub.w.hyd.value, hyd));
      hub.Do(Main(RecordIam(out)));
      if o == Acknowledged {
        hyd := hub.w.hyd.value;
      }
      return o == Acknowledged;
    }

    /** The status write that opens the IAM gate. */
    method OpenGate(out: IamOutput) returns (ok: bool)
      requires InBuild() && hub.w.hyd.value.infraReady && hub.w.cfg.region != ""
      requires CloudOf(hub.w, hyd.infraID) == Cloud(Full, FullIam(out))
      requires Mirrored() && hyd.cluster.Some? && CarriesIam(hyd.cluster.value, out)
      modifies this`hyd, hub
      ensures hub.Valid() && hub.w.main == Creating && hub.w.cfg == old(hub.w.cfg)
      ensures ok ==> InPass() && Mirrored() && hyd.infraReady && hyd.iamReady
      ensures hyd.infraID == old(hyd.infraID) && (ok ==> SpecOf(hyd) == SpecOf(old(hyd)))
      ensures old(hub.run) <= hub.run
      ensures calm ==> ok && hub.run == old(hub.run) + [Main(MarkIam(true))] && hub.w.works == old(hub.w.works)
    {
      hub.InterfereWithMain(calm);
      var o := Call(calm);
      if o == NoEffect {
        return false;
      }
      hub.Do(Main(MarkIam(true)));
      if o == Acknowledged {
        hyd := hub.w.hyd.value;
      }
      return o == Acknowledged;
    }

    /**
     The first half of createAWSInfra: create, store the scaffolded spec and pools, and open the
     infrastructure gate. Without pools the source dies while scaffolding them.
     */
    method BuildInfra(spec: HostedClusterSpec, pools: Option<seq<NodePool>>) returns (stop: bool)
      requires InBuild() && !HasDeprecatedRoles(Some(spec))
      modifies this`hyd, hub
      ensures hub.Valid() && hub.w.main == Creating && hub.w.cfg == old(hub.w.cfg)
      ensures !stop ==> pools.Some? && InfraIsBuilt(Spec(Some(spec), pools.value)) && hyd.infraID == old(hyd.infraID)
      ensures old(hub.run) <= hub.run
      ensures calm ==>
                && stop == pools.None? && hub.w.works == map[]
                && hub.run == old(hub.run) + InfraCalls(old(hyd).infraID, spec, pools)
    {
      ghost var first := [Main(MarkInfra(false)), Main(CreateInfra(hyd.infraID, Full))];
      var created := StartInfra();
      if !created || pools == None {
        return true;
      }
      Chained(old(hub.run), first, [Main(RecordInfra(spec, pools.value)), Main(MarkInfra(true))]);
      stop := RecordScaffold(spec, pools.value);
    }

    /** The infrastructure is complete and marked so, and the stored spec is the one given. */
    ghost predicate InfraIsBuilt(spec: Spec)
      reads this, hub
    {
      && InBuild() && hub.w.hyd.value.infraReady && CloudOf(hub.w, hyd.infraID).infra == Full
      && Mirrored() && SpecOf(hyd) == spec
    }

    /** The condition that says so, and the infrastructure creator. */
    method StartInfra() returns (created: bool)
      requires InBuild()
      modifies this`hyd, hub
      ensures InBuild() && hyd.infraID == old(hyd.infraID) && hub.w.cfg == old(hub.w.cfg)
      ensures created ==> CloudOf(hub.w, hyd.infraID).infra == Full
      ensures old(hub.run) <= hub.run
      ensures calm ==>
                created && hub.run == old(hub.run) + [Main(MarkInfra(false)), Main(CreateInfra(old(hyd).infraID, Full))]
    {
      var _ := WriteStatus(MarkInfra(false));
      created := CallInfraCreator();
      if !created {
        var _ := WriteStatus(MarkInfra(false));
      }
    }

    /** The patch with the scaffolded spec, and the gate. */
    method RecordScaffold(spec: HostedClusterSpec, pools: seq<NodePool>) returns (stop: bool)
      requires InBuild() && CloudOf(hub.w, hyd.infraID).infra == Full && !HasDeprecatedRoles(Some(spec))
      modifies this`hyd, hub
      ensures InBuild() && hub.w.cfg == old(hub.w.cfg)
      ensures !stop ==> InfraIsBuilt(Spec(Some(spec), pools)) && hyd.infraID == old(hyd.infraID)
      ensures old(hub.run) <= hub.run
      ensures calm ==> !stop && hub.run == old(hub.run) + [Main(RecordInfra(spec, pools)), Main(MarkInfra(true))]
    {
      var patched := PatchScaffold(spec, pools);
      if !patched {
        var _ := WriteStatus(MarkInfra(false));
        return true;
      }
      var marked := OpenInfraGate();
      return !marked;
    }

    /** The second half: IAM. Some failures here end without a requeue, and the pass goes on to the gate. */
    method BuildIam(out: IamOutput) returns (stop: bool)
      requires InBuild() && hub.w.hyd.value.infraReady && hub.w.cfg.region != ""
      requires CloudOf(hub.w, hyd.infraID).infra == Full
      requires Mirrored() && hyd.cluster.Some? && hyd.cluster.value.aws.Some?
      modifies this`hyd, hub
      ensures hub.Valid() && hub.w.main == Creating && hub.w.cfg == old(hub.w.cfg)
      ensures !stop ==> InPass() && hyd.infraID == old(hyd.infraID) && (hyd.iamReady ==> Mirrored())
      ensures old(hub.run) <= hub.run
      ensures calm ==> hub.run == old(hub.run) + IamCalls(old(hyd).infraID, out)
      ensures calm ==> !stop && hyd.infraReady && hyd.iamReady && hub.w.works == map[]
                       && SpecOf(hyd) == Spec(Some(WithIam(old(hyd).cluster.value, out)), old(hyd).pools)
    {
      var shut := WriteStatus(MarkIam(false));
      if !shut {
        return true;
      }
      var discovered := Succeeds(calm);
      if !discovered {
        var noted := WriteStatus(MarkIam(false));
        return !noted;
      }
      var created := CallIamCreator(out);
      if !created {
        var _ := WriteStatus(MarkIam(false));
        return true;
      }
      var patched := PatchIam(out);
      if !patched {
        var noted := WriteStatus(MarkIam(false));
        return !noted;
      }
      var marked := OpenGate(out);
      return !marked;
    }

    /** createAWSInfra; `stop` is an error or a requeue, otherwise the pass goes on to the gate. */
    method CreateAwsInfra(infraOut: InfraOutput, iamOut: IamOutput, uuid: string) returns (stop: bool)
      requires InPass() && Mirrored() && hub.w.cfg.configure && infraOut.zones != []
      requires hyd.infraReady == hub.w.hyd.value.infraReady && hyd.iamReady == hub.w.hyd.value.iamReady
      modifies this`hyd, hub
      ensures hub.Valid() && hub.w.main == Creating && hub.w.cfg == old(hub.w.cfg)
      ensures !stop ==> InPass() && hyd.infraID == old(hyd.infraID) && (hyd.iamReady ==> Mirrored())
      ensures old(hub.run) <= hub.run
      ensures calm ==> hub.w.works == old(hub.w.works)
      ensures calm ==> hub.run == old(hub.run) + BuildCalls(hub.w.cfg, old(hyd), infraOut, iamOut, uuid)
      ensures calm && hub.w.cfg.region == "" ==> !stop && !hyd.infraReady
      ensures calm && hub.w.cfg.region != "" ==>
                var built := Built(hub.w.cfg, old(hyd), infraOut, iamOut, uuid);
                && stop == built.None?
                && (built.Some? ==> hyd.infraReady && hyd.iamReady && SpecOf(hyd) == built.value)
    {
      GateShutMeansBuilding();
      if hub.w.cfg.region == "" {
        var noted := WriteStatus(MarkInfra(false));
        return !noted;
      }
      if !hyd.infraReady || !hyd.iamReady {
        var spec := Scaffolded(hub.w.cfg, hyd, infraOut, uuid);
        var pools := PoolsFor(hub.w.cfg, hyd, spec, infraOut);
        RolesStayMigrated(infraOut, uuid);
        stop := BuildInfra(spec, pools);
        if stop {
          return;
        }
        stop := BuildIam(iamOut);
        return;
      }
      return false;
    }

    /** Scaffolding brings no deprecated roles into a spec whose roles are migrated. */
    lemma RolesStayMigrated(out: InfraOutput, uuid: string)
      requires InPass() && Mirrored() && out.zones != []
      ensures !HasDeprecatedRoles(Some(Scaffolded(hub.w.cfg, hyd, out, uuid)))
    {
      hub.Reachable();
    }

    /** While a gate is shut, or the region is missing, nothing can have been deployed. */
    lemma GateShutMeansBuilding()
      requires InPass() && hub.w.cfg.configure
      ensures !hub.w.hyd.value.infraReady || !hub.w.hyd.value.iamReady || hub.w.cfg.region == "" ==>
                Building(hub.w, hyd.infraID)
    {
      hub.Reachable();
    }

    /** Without configuration both gates are shut and stay so; errors of these status writes are ignored. */
    method MarkNotApplicable()
      requires InPass() && Mirrored() && !hub.w.cfg.configure
      modifies this`hyd, hub
      ensures InPass() && Mirrored() && hyd.infraID == old(hyd.infraID) && SpecOf(hyd) == SpecOf(old(hyd))
      ensures hub.w.cfg == old(hub.w.cfg)
      ensures old(hub.run) <= hub.run
      ensures calm ==> hub.w.works == old(hub.w.works) && hub.run == old(hub.run) + [Main(MarkIam(false)), Main(MarkInfra(false))]
    {
      hub.Reachable();
      MarkFalse(MarkIam(false));
      MarkFalse(MarkInfra(false));
    }

    method MarkFalse(a: MainAction)
      requires InPass() && Mirrored() && !hub.w.cfg.configure && (a == MarkIam(false) || a == MarkInfra(false))
      requires !hyd.infraReady && !hyd.iamReady && !hub.w.hyd.value.infraReady && !hub.w.hyd.value.iamReady
      modifies this`hyd, hub
      ensures InPass() && Mirrored() && hyd.infraID == old(hyd.infraID) && SpecOf(hyd) == SpecOf(old(hyd))
      ensures !hyd.infraReady && !hyd.iamReady && !hub.w.hyd.value.infraReady && !hub.w.hyd.value.iamReady
      ensures hub.w.cfg == old(hub.w.cfg)
      ensures old(hub.run) <= hub.run
      ensures calm ==> hub.w.works == old(hub.w.works) && hub.run == old(hub.run) + [Main(a)]
    {
      var changes := Succeeds(calm);
      if !changes {
        return;
      }
      hub.InterfereWithMain(calm);
      var o := Call(calm);
      if o == NoEffect {
        return;
      }
      hub.Do(Main(a));
      if o == Acknowledged {
        hyd := hub.w.hyd.value;
      }
    }

    // ---- writing the work ------------------------------------------------------------------------

    /** The gate as the code tests it: the copy's conditions, unless the user brings the infrastructure. */
    ghost predicate MayWrite()
      reads this, hub
    {
      && InPass() && hub.w.cfg.override != InfraOnly
      && (hub.w.cfg.configure ==> hyd.infraReady && hyd.iamReady && Mirrored())
    }

    /** setDefaultValueForHostedCluster: a patch if the cluster id or the catalog placement is missing. */
    method SetDefaultValues(uuid: string) returns (ok: bool)
      requires MayWrite() && Mirrored()
      modifies this`hyd, hub
      ensures hub.Valid() && hub.w.main == Creating && hub.w.cfg == old(hub.w.cfg)
      ensures ok ==> MayWrite() && Mirrored() && hyd.infraID == old(hyd.infraID)
      ensures old(hub.run) <= hub.run
      ensures calm ==> ok && hub.w.works == old(hub.w.works) && SpecOf(hyd) == Completed(SpecOf(old(hyd)), uuid)
      ensures calm ==> hub.run == old(hub.run) + DefaultCalls(SpecOf(old(hyd)), uuid)
    {
      if hyd.cluster == None {
        return true;
      }
      var spec := hyd.cluster.value;
      if spec.clusterID != "" && spec.olmCatalogPlacement != "" {
        return true;
      }
      ok := PatchDefaults(Scaffold.OrElse(spec.clusterID, uuid), Scaffold.OrElse(spec.olmCatalogPlacement, "management"));
    }

    method PatchDefaults(clusterID: string, catalog: string) returns (ok: bool)
      requires MayWrite() && Mirrored() && hyd.cluster.Some?
      modifies this`hyd, hub
      ensures hub.Valid() && hub.w.main == Creating && hub.w.cfg == old(hub.w.cfg)
      ensures ok ==> MayWrite() && Mirrored() && hyd.infraID == old(hyd.infraID)
      ensures old(hub.run) <= hub.run
      ensures calm ==>
                && ok && hub.w.works == old(hub.w.works)
                && hub.run == old(hub.run) + [Main(SetDefaults(clusterID, catalog))]
                && SpecOf(hyd) == Spec(Some(old(hyd).cluster.value.(clusterID := clusterID, olmCatalogPlacement := catalog)),
                                       old(hyd).pools)
    {
      hyd := hyd.(cluster := Some(hyd.cluster.value.(clusterID := clusterID, olmCatalogPlacement := catalog)));
      hub.InterfereWithMain(calm);
      var o := Call(calm);
      if o == NoEffect {
        return false;
      }
      assert MainApply(hub.w, SetDefaults(clusterID, catalog)).hyd == Some(Overwritten(hub.w.hyd.value, hyd));
      hub.Do(Main(SetDefaults(clusterID, catalog)));
      if o == Acknowledged {
        hyd := hub.w.hyd.value;
      }
      return o == Acknowledged;
    }

    /** The payload stored at the moment, if there is a work. */
    function Stored(): Option<seq<Manifest>>
      reads this, hub
    {
      if hyd.infraID in hub.w.works then Some(hub.w.works[hyd.infraID].spec.payload) else None
    }

    /** While a creating pass runs no work is being deleted, and its secrets are in the hosting namespace. */
    lemma WorkIsSteady()
      requires InPass()
      ensures hyd.infraID in hub.w.works ==> !hub.w.works[hyd.infraID].deleting
      ensures Stored().Some? ==> SecretsIn(hub.w.cfg.hostingNamespace, Stored().value)
    {
      hub.Reachable();
      if hyd.infraID in hub.w.works {
        assert WorkIsGood(hub.w, hyd.infraID, hub.w.works[hyd.infraID]);
      }
    }

    /** Steps of others between two calls. */
    method Interfere()
      requires InPass()
      modifies hub
      ensures InPass() && hub.w.cfg == old(hub.w.cfg) && (old(Mirrored()) ==> Mirrored())
      ensures Stored() == old(Stored())
      ensures old(hub.run) <= hub.run
      ensures calm ==> hub.w == old(hub.w) && hub.run == old(hub.run)
    {
      WorkIsSteady();
      hub.InterfereWithMain(calm);
    }

    /** The payload that came out of the loaders may be written now. */
    lemma AssembledMayBeWritten(inp: Inputs, stored: seq<Manifest>, payload: seq<Manifest>)
      requires MayWrite() && InputsFit(hub.w.cfg, inp) && SecretsIn(inp.hostingNamespace, stored)
      requires LoadedFrom(inp, stored) == Some(payload)
      requires inp.configure ==> hyd.cluster == Some(inp.ownCluster)
      ensures MayDeploy(hub.w, hyd.infraID, payload)
    {
      AssembledIsWellFormed(inp, stored);
      if inp.configure {
        hub.Reachable();
        assert ChosenCluster(inp) == Some(inp.ownCluster);
      }
    }

    /** The Create or Update at the end of createOrUpdateMainfestwork; `done` says whether it had its effect. */
    method WriteWork(payload: seq<Manifest>) returns (ok: bool, ghost done: bool)
      requires MayWrite() && MayDeploy(hub.w, hyd.infraID, payload)
      modifies hub
      ensures InPass() && hub.w.cfg == old(hub.w.cfg)
      ensures Stored() == if done then Some(payload) else old(Stored())
      ensures old(hub.run) <= hub.run
      ensures calm ==> hub.run == old(hub.run) + [Main(WriteCall(old(hub.w).works, hyd.infraID, payload))]
      ensures calm ==> ok && done && hub.w.hyd == old(hub.w.hyd)
    {
      Interfere();
      var o := Call(calm);
      if o == NoEffect {
        return false, false;
      }
      if hyd.infraID !in hub.w.works {
        hub.Do(Main(CreateWork(hyd.infraID, payload)));
      } else {
        hub.Do(Main(UpdateWork(hyd.infraID, payload)));
      }
      return o == Acknowledged, true;
    }

    /** Reads the payload stored at the moment; a read that fails shows an empty one. */
    method ReadStored() returns (view: seq<Manifest>, ghost seen: bool)
      requires MayWrite()
      modifies hub
      ensures MayWrite() && hub.w.cfg == old(hub.w.cfg)
      ensures SecretsIn(hub.w.cfg.hostingNamespace, view)
      ensures Stored() == old(Stored()) && view == View(Stored(), seen)
      ensures old(hub.run) <= hub.run
      ensures calm ==> hub.w == old(hub.w) && hub.run == old(hub.run) && seen
    {
      Interfere();
      var readable := Succeeds(calm);
      WorkIsSteady();
      seen := readable;
      view := if readable && hyd.infraID in hub.w.works then hub.w.works[hyd.infraID].spec.payload else [];
    }

    /** Reads the stored work and runs the loaders. */
    method LoadPayload(inp: Inputs) returns (payload: Option<seq<Manifest>>, ghost seen: bool)
      requires MayWrite() && InputsFit(hub.w.cfg, inp) && (inp.configure ==> hyd.cluster.Some?)
      modifies hub
      ensures MayWrite() && hub.w.cfg == old(hub.w.cfg)
      ensures payload.Some? ==> MayDeploy(hub.w, hyd.infraID, payload.value)
      ensures Stored() == old(Stored()) && payload == LoadedFrom(WithSpec(inp, SpecOf(hyd)), View(Stored(), seen))
      ensures old(hub.run) <= hub.run
      ensures calm ==> hub.w == old(hub.w) && hub.run == old(hub.run) && seen
    {
      var view;
      view, seen := ReadStored();
      payload := RunLoaders(WithSpec(inp, SpecOf(hyd)), view);
      if payload.Some? {
        AssembledMayBeWritten(WithSpec(inp, SpecOf(hyd)), view, payload.value);
      }
    }

    /**
     createOrUpdateMainfestwork. `inp` is what the loaders read from the hub; the checks that read other
     objects are one check that may fail. Whatever others do and whichever calls fail, the stored payload
     undergoes one round: it stays, or becomes what the loaders assemble from what the pass saw of it.
     */
    method CreateOrUpdateWork(inp: Inputs) returns (written: bool, ghost round: Round)
      requires MayWrite() && InputsFit(hub.w.cfg, inp)
      modifies hub
      ensures hub.Valid() && hub.w.main == Creating && hub.w.cfg == old(hub.w.cfg)
      ensures round.inputs == WithSpec(inp, SpecOf(hyd)) && Stored() == AfterRound(old(Stored()), round)
      ensures old(hub.run) <= hub.run
      ensures calm ==> round.seen && (round.written <==> (hyd.cluster.Some? || ByReference(inp)) && PoolsMatch(inp.name, SpecOf(hyd)))
      ensures calm ==> hub.run == old(hub.run) + WorkCalls(hyd.infraID, SpecOf(hyd), old(hub.w).works, inp)
      ensures calm ==> SameSpec(old(hub.w.hyd), hub.w.hyd)
    {
      written, round := false, Round(WithSpec(inp, SpecOf(hyd)), true, false);
      if hyd.cluster == None && (inp.configure || |inp.clusterRef| == 0) {
        WriteWorkStatus();
        return;
      }
      var valid := Succeeds(calm);
      if !valid || !PoolsMatch(inp.name, SpecOf(hyd)) {
        WriteWorkStatus();
        return;
      }
      written, round := LoadAndStore(inp);
    }

    /** The second half: the loaders, and the write. */
    method LoadAndStore(inp: Inputs) returns (written: bool, ghost round: Round)
      requires MayWrite() && InputsFit(hub.w.cfg, inp) && (inp.configure ==> hyd.cluster.Some?)
      modifies hub
      ensures hub.Valid() && hub.w.main == Creating && hub.w.cfg == old(hub.w.cfg)
      ensures round.inputs == WithSpec(inp, SpecOf(hyd)) && Stored() == AfterRound(old(Stored()), round)
      ensures old(hub.run) <= hub.run
      ensures calm ==> round.seen && round.written && SameSpec(old(hub.w.hyd), hub.w.hyd)
      ensures calm ==>
                var loaded := LoadedFrom(WithSpec(inp, SpecOf(hyd)), View(old(Stored()), true));
                hub.run == old(hub.run) + (
                  if loaded.Some? then [Main(WriteCall(old(hub.w).works, hyd.infraID, loaded.value)), Main(TouchStatus)]
                  else if ReferencesReadable(WithSpec(inp, SpecOf(hyd))) then []
                  else [Main(TouchStatus)])
    {
      ghost var seen;
      var payload;
      payload, seen := LoadPayload(inp);
      round := Round(WithSpec(inp, SpecOf(hyd)), seen, true);
      if payload == None {
        written := false;
        if !ReferencesReadable(WithSpec(inp, SpecOf(hyd))) {
          WriteWorkStatus();
        }
        return;
      }
      ghost var done;
      written, done := StorePayload(payload.value);
      round := Round(WithSpec(inp, SpecOf(hyd)), seen, done);
    }

    /** The write, and the status patch that follows it. */
    method StorePayload(payload: seq<Manifest>) returns (written: bool, ghost done: bool)
      requires MayWrite() && MayDeploy(hub.w, hyd.infraID, payload)
      modifies hub
      ensures hub.Valid() && hub.w.main == Creating && hub.w.cfg == old(hub.w.cfg)
      ensures Stored() == if done then Some(payload) else old(Stored())
      ensures old(hub.run) <= hub.run
      ensures calm ==>
                && written && done
                && hub.run == old(hub.run) + [Main(WriteCall(old(hub.w).works, hyd.infraID, payload)), Main(TouchStatus)]
                && SameSpec(old(hub.w.hyd), hub.w.hyd)
    {
      written, done := WriteWork(payload);
      if written {
        WriteWorkStatus();
      }
    }

    /** What follows an open gate: the defaults, and then the work. */
    method DeployWork(uuid: string, inp: Inputs)
      requires MayWrite() && Mirrored() && InputsFit(hub.w.cfg, inp)
      modifies this`hyd, hub
      ensures hub.Valid() && hub.w.main == Creating && hub.w.cfg == old(hub.w.cfg)
      ensures old(hub.run) <= hub.run
      ensures calm ==> hub.run == old(hub.run) + DeployCalls(old(hyd).infraID, SpecOf(old(hyd)), old(hub.w).works, uuid, inp)
      ensures calm ==> Deployed(old(hyd).infraID, Completed(SpecOf(old(hyd)), uuid), old(hub.w).works, hub.w, inp)
    {
      ghost var first := DefaultCalls(SpecOf(hyd), uuid);
      var ok := SetDefaultValues(uuid);
      if ok {
        ghost var second := WorkCalls(hyd.infraID, SpecOf(hyd), hub.w.works, inp);
        Chained(old(hub.run), first, second);
        var _, _ := CreateOrUpdateWork(inp);
      }
    }

    /** The closing status patch. */
    method WriteWorkStatus()
      requires InPass()
      modifies hub
      ensures InPass() && hub.w.cfg == old(hub.w.cfg) && Stored() == old(Stored())
      ensures old(hub.run) <= hub.run
      ensures calm ==> hub.run == old(hub.run) + [Main(TouchStatus)]
      ensures calm ==> hub.w.works == old(hub.w.works) && SameSpec(old(hub.w.hyd), hub.w.hyd)
    {
      Interfere();
      var o := Call(calm);
      if o != NoEffect {
        hub.Do(Main(TouchStatus));
      }
    }
  }
}
