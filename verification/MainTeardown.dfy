/**
 The main reconciler on a deleting deployment: destroyHypershift and what it calls. Between any two
 calls other actors may act, and every call may fail, with or without having had its effect.
 */
module MainTeardown {
  import opened Wrappers
  import opened Lifecycle
  import opened Invariant
  import opened HubModel

  /** What deleteManifestworkWaitCleanUp reports: nothing left to wait for, something to wait for, or an error. */
  datatype Cleanup = Gone | Waiting | Failed

  /** The delete option an override calls for, case by case. */
  predicate IsCalledFor(cfg: Config, option: DeleteOption) {
    && (cfg.override == Orphan ==> option == OrphanAll)
    && (cfg.override == DeleteHostingNamespace ==> option == Foreground)
    && (cfg.override == NoOverride || cfg.override == InfraOnly ==> option == SelectivelyOrphan(cfg.hostingNamespace))
  }

  /** The agent applied the work with the option called for, and reports it available at this generation. */
  predicate Handshaken(cfg: Config, work: Work) {
    && IsCalledFor(cfg, work.spec.deleteOption)
    && work.consumed == Some(Consumed(work.generation, work.spec))
    && work.available == Some(Availability(true, work.generation))
  }

  // ---- the calls of a healthy pass -----------------------------------------------------------------

  /** The calls a healthy cleanup of the work makes: patch the option, or delete, or wait. */
  function CleanupCalls(cfg: Config, works: map<string, Work>, id: string): seq<Action> {
    if id !in works || works[id].deleting then []
    else if Wanted(cfg) == OrphanAll then [Main(DeleteWork(id))]
    else if works[id].spec.deleteOption != Wanted(cfg) then [Main(PatchDeleteOption(id))]
    else if works[id].available == Some(Availability(true, works[id].generation)) then [Main(DeleteWork(id))]
    else []
  }

  function CloudCalls(cfg: Config, id: string): seq<Action> {
    if cfg.configure && cfg.override != Orphan
    then [Main(MarkInfra(false)), Main(DestroyInfra(id, Absent)), Main(MarkIam(false)), Main(DestroyIam(id, NoIam))]
    else []
  }

  /** The calls of a healthy destroyHypershift. A status write that changes nothing counts as a call. */
  function DestroyCalls(cfg: Config, finalizers: set<Finalizer>, works: map<string, Work>, id: string): seq<Action> {
    if ManagedClusterCleanup in finalizers then []
    else
      (if cfg.override == InfraOnly then [] else CleanupCalls(cfg, works, id) + [Main(TouchStatus)])
      + (if cfg.override != InfraOnly && id in works then [] else CloudCalls(cfg, id) + [Main(RemoveDestroyFinalizer)])
  }

  // ---- the reconciler ----------------------------------------------------------------------------

  /** The in-memory copy is no newer than the stored object, and the same if it is not older. */
  predicate VersionSound(copy: Hyd, stored: Hyd) {
    copy.version <= stored.version && (copy.version == stored.version ==> copy == stored)
  }

  class Destroyer {
    const hub: Hub
    const calm: bool
    var hyd: Hyd

    constructor (hub: Hub, calm: bool, hyd: Hyd)
      ensures this.hub == hub && this.calm == calm && this.hyd == hyd
    {
      this.hub := hub;
      this.calm := calm;
      this.hyd := hyd;
    }

    /** The pass acts on a deployment that is deleting, is still held, and no longer waits for its managed cluster. */
    ghost predicate Tearing()
      reads this, hub
    {
      && hub.Valid()
      && MayTearDown(hub.w, hyd.infraID)
      && VersionSound(hyd, hub.w.hyd.value)
    }

    lemma OnlyOneWork()
      requires Tearing()
      ensures hyd.infraID !in hub.w.works ==> hub.w.works == map[]
      ensures hub.w.cfg.override == InfraOnly ==> hub.w.works == map[]
    {
      hub.Reachable();
      forall id | id in hub.w.works ensures WorkIsGood(hub.w, id, hub.w.works[id]) && id == hyd.infraID {
        assert WorkIsGood(hub.w, id, hub.w.works[id]);
      }
    }

    /** A report of the work's own generation comes from an agent that applied the work as it is. */
    lemma ReportsAreHonest()
      requires Tearing() && hyd.infraID in hub.w.works
      ensures var work := hub.w.works[hyd.infraID];
              work.available.Some? ==>
                && work.available.value.observedGeneration <= work.generation
                && (work.available.value.observedGeneration == work.generation ==> UpToDate(work))
    {
      hub.Reachable();
      assert WorkIsGood(hub.w, hyd.infraID, hub.w.works[hyd.infraID]);
    }

    /** A status write, skipped if it would change nothing; its error is the caller's to heed or ignore. */
    method WriteStatus(a: MainAction) returns (ok: bool)
      requires Tearing()
      requires a.TouchStatus? || ((a == MarkInfra(false) || a == MarkIam(false)) && hub.w.works == map[])
      modifies this`hyd, hub
      ensures Tearing() && hyd.infraID == old(hyd.infraID)
      ensures hub.w.cfg == old(hub.w.cfg) && hub.w.cloud == old(hub.w.cloud)
      ensures WorksRely(old(hub.w.works), hub.w.works)
      ensures old(hub.run) <= hub.run
      ensures calm ==> ok && hub.run == old(hub.run) + [Main(a)] && hub.w.works == old(hub.w.works)
                       && hyd.version == hub.w.hyd.value.version
    {
      var changes := Succeeds(calm);
      if !changes {
        return true;
      }
      hub.InterfereWithMain(calm);
      var o := Call(calm);
      if o == NoEffect {
        return false;
      }
      hub.Do(Main(a));
      if o == Acknowledged {
        hyd := hub.w.hyd.value;
      }
      return o == Acknowledged;
    }

    /** The patch that sets the delete option the override calls for. */
    method PatchOption() returns (ok: bool)
      requires Tearing() && hyd.infraID in hub.w.works && !hub.w.works[hyd.infraID].deleting
      requires Wanted(hub.w.cfg) != OrphanAll && hub.w.works[hyd.infraID].spec.deleteOption != Wanted(hub.w.cfg)
      modifies hub
      ensures Tearing() && hub.w.cfg == old(hub.w.cfg) && hub.w.cloud == old(hub.w.cloud)
      ensures old(hub.run) <= hub.run
      ensures ok ==>
                && hyd.infraID in hub.w.works && !hub.w.works[hyd.infraID].deleting
                && hub.w.works[hyd.infraID].spec.deleteOption == Wanted(hub.w.cfg)
      ensures calm ==> ok && hub.run == old(hub.run) + [Main(PatchDeleteOption(hyd.infraID))]
                       && hub.w == MainApply(old(hub.w), PatchDeleteOption(hyd.infraID))
    {
      hub.InterfereWithMain(calm);
      var o := Call(calm);
      if o == NoEffect {
        return false;
      }
      hub.Do(Main(PatchDeleteOption(hyd.infraID)));
      return o == Acknowledged;
    }

    /** The Delete call. */
    method IssueDelete() returns (ok: bool)
      requires Tearing() && MainEnabled(hub.w, DeleteWork(hyd.infraID))
      modifies hub
      ensures Tearing() && hub.w.cfg == old(hub.w.cfg) && hub.w.cloud == old(hub.w.cloud)
      ensures old(hub.run) <= hub.run
      ensures calm ==> ok && hub.run == old(hub.run) + [Main(DeleteWork(hyd.infraID))] && hub.w.hyd == old(hub.w.hyd)
    {
      hub.InterfereWithMain(calm);
      var o := Call(calm);
      if o == NoEffect {
        return false;
      }
      hub.Do(Main(DeleteWork(hyd.infraID)));
      return o == Acknowledged;
    }

    /** The patch of the delete option, unless it is the wanted one already. */
    method EnsureOption() returns (ok: bool)
      requires Tearing() && hyd.infraID in hub.w.works && !hub.w.works[hyd.infraID].deleting
      requires Wanted(hub.w.cfg) != OrphanAll
      modifies hub
      ensures Tearing() && hub.w.cfg == old(hub.w.cfg) && hub.w.cloud == old(hub.w.cloud)
      ensures old(hub.run) <= hub.run
      ensures ok ==>
                && hyd.infraID in hub.w.works && !hub.w.works[hyd.infraID].deleting
                && hub.w.works[hyd.infraID].spec.deleteOption == Wanted(hub.w.cfg)
      ensures calm && old(hub.w).works[hyd.infraID].spec.deleteOption == Wanted(hub.w.cfg) ==>
                ok && hub.w == old(hub.w) && hub.run == old(hub.run)
      ensures calm && old(hub.w).works[hyd.infraID].spec.deleteOption != Wanted(hub.w.cfg) ==>
                && ok && hub.run == old(hub.run) + [Main(PatchDeleteOption(hyd.infraID))]
                && hub.w == MainApply(old(hub.w), PatchDeleteOption(hyd.infraID))
    {
      if hub.w.works[hyd.infraID].spec.deleteOption == Wanted(hub.w.cfg) {
        return true;
      }
      ok := PatchOption();
    }

    /**
     The handshake before a Delete: patch the option if it is not the wanted one, then go on only if
     the agent reports the work available at the generation just read or written.
     */
    method AwaitOption() returns (ready: bool, failed: bool)
      requires Tearing() && hyd.infraID in hub.w.works && !hub.w.works[hyd.infraID].deleting
      modifies hub
      ensures Tearing() && hub.w.cfg == old(hub.w.cfg) && hub.w.cloud == old(hub.w.cloud)
      ensures old(hub.run) <= hub.run
      ensures ready ==> !failed && MainEnabled(hub.w, DeleteWork(hyd.infraID))
      ensures ready && hub.w.cfg.override != Orphan ==> Handshaken(hub.w.cfg, hub.w.works[hyd.infraID])
      ensures calm ==>
                && !failed && hub.w.hyd == old(hub.w.hyd)
                && hub.run + (if ready then [Main(DeleteWork(hyd.infraID))] else [])
                   == old(hub.run) + CleanupCalls(old(hub.w).cfg, old(hub.w).works, hyd.infraID)
    {
      if Wanted(hub.w.cfg) == OrphanAll {
        return true, false;
      }
      ReportsAreHonest();
      var ok := EnsureOption();
      if !ok {
        return false, true;
      }
      ReportsAreHonest();
      var m := hub.w.works[hyd.infraID];
      ready := m.available.Some? && m.available.value.observedGeneration == m.generation && m.available.value.ok;
      return ready, false;
    }

    /** deleteManifestworkWaitCleanUp. */
    method DeleteWorkWaitCleanUp() returns (r: Cleanup)
      requires Tearing() && hub.w.cfg.override != InfraOnly
      modifies hub
      ensures Tearing()
      ensures hub.w.cfg == old(hub.w.cfg) && hub.w.cloud == old(hub.w.cloud)
      ensures r == Gone ==> hub.w.works == map[]
      ensures old(hub.run) <= hub.run
      ensures calm ==>
                && hub.run == old(hub.run) + CleanupCalls(old(hub.w).cfg, old(hub.w).works, hyd.infraID)
                && r == (if hyd.infraID in old(hub.w.works) then Waiting else Gone)
                && hub.w.hyd == old(hub.w.hyd)
    {
      hub.InterfereWithMain(calm);
      var readable := Succeeds(calm);
      if !readable {
        return Failed;
      }
      OnlyOneWork();
      if hyd.infraID !in hub.w.works {
        return Gone;
      }
      if hub.w.works[hyd.infraID].deleting {
        return Waiting;
      }
      var ready, failed := AwaitOption();
      if !ready {
        return if failed then Failed else Waiting;
      }
      var deleted := IssueDelete();
      return if deleted then Waiting else Failed;
    }

    /** The cloud call that destroys the infrastructure; a failure may leave part of it. */
    method CallInfraDestroyer() returns (ok: bool)
      requires Tearing() && hub.w.works == map[] && hub.w.cfg.configure && hub.w.cfg.override != Orphan
      modifies hub
      ensures Tearing() && hub.w.works == map[] && hub.w.cfg == old(hub.w.cfg)
      ensures ok ==> CloudOf(hub.w, hyd.infraID).infra == Absent
      ensures old(hub.run) <= hub.run
      ensures calm ==> ok && hub.run == old(hub.run) + [Main(DestroyInfra(hyd.infraID, Absent))]
                       && hub.w.hyd == old(hub.w.hyd)
    {
      hub.InterfereWithMain(calm);
      ok := Succeeds(calm);
      var infra := Absent;
      if !ok {
        infra := CloudOf(hub.w, hyd.infraID).infra;
        var partly: bool := *;
        if partly && infra == Full {
          infra := Partial;
        }
      }
      hub.Do(Main(DestroyInfra(hyd.infraID, infra)));
    }

    method CallIamDestroyer() returns (ok: bool)
      requires Tearing() && hub.w.works == map[] && hub.w.cfg.configure && hub.w.cfg.override != Orphan
      requires CloudOf(hub.w, hyd.infraID).infra == Absent
      modifies hub
      ensures Tearing() && hub.w.works == map[] && hub.w.cfg == old(hub.w.cfg)
      ensures ok ==> CloudOf(hub.w, hyd.infraID) == NOTHING
      ensures old(hub.run) <= hub.run
      ensures calm ==> ok && hub.run == old(hub.run) + [Main(DestroyIam(hyd.infraID, NoIam))]
                       && hub.w.hyd == old(hub.w.hyd)
    {
      hub.InterfereWithMain(calm);
      ok := Succeeds(calm);
      var iam := NoIam;
      if !ok {
        iam := CloudOf(hub.w, hyd.infraID).iam;
        var partly: bool := *;
        if partly && iam != NoIam {
          iam := PartialIam;
        }
      }
      hub.Do(Main(DestroyIam(hyd.infraID, iam)));
    }

    /** destroyAWSInfrastructure: infrastructure first, then IAM; any failure asks for a requeue. */
    method DestroyAwsInfrastructure() returns (requeue: bool)
      requires Tearing() && hub.w.works == map[] && hub.w.cfg.configure && hub.w.cfg.override != Orphan
      modifies this`hyd, hub
      ensures Tearing() && hub.w.works == map[] && hyd.infraID == old(hyd.infraID)
      ensures hub.w.cfg == old(hub.w.cfg)
      ensures !requeue ==> CloudOf(hub.w, hyd.infraID) == NOTHING
      ensures old(hub.run) <= hub.run
      ensures calm ==> !requeue && hub.run == old(hub.run) + CloudCalls(old(hub.w).cfg, hyd.infraID)
                       && hyd.version == hub.w.hyd.value.version
    {
      var _ := WriteStatus(MarkInfra(false));
      var ok := CallInfraDestroyer();
      if !ok {
        var _ := WriteStatus(MarkInfra(false));
        return true;
      }
      var _ := WriteStatus(MarkIam(false));
      ok := CallIamDestroyer();
      if !ok {
        var _ := WriteStatus(MarkIam(false));
        return true;
      }
      return false;
    }

    /** The closing Update: it carries the resource version of the copy and is refused if that is stale. */
    method RemoveFinalizer()
      requires Tearing() && hub.w.works == map[]
      requires hub.w.cfg.configure && hub.w.cfg.override != Orphan ==> CloudOf(hub.w, hyd.infraID) == NOTHING
      modifies hub
      ensures hub.Valid() && hub.w.main == Destroying
      ensures old(hub.run) <= hub.run
      ensures calm && hyd.version == old(hub.w.hyd.value.version) ==>
                hub.run == old(hub.run) + [Main(RemoveDestroyFinalizer)]
    {
      hub.InterfereWithMain(calm);
      var o := Call(calm);
      if o == NoEffect || hyd.version != hub.w.hyd.value.version {
        return;
      }
      assert MainApply(hub.w, RemoveDestroyFinalizer).hyd == WithFinalizers(hyd, hyd.finalizers - {Destroy});
      hub.Do(Main(RemoveDestroyFinalizer));
    }

    /** The first half of destroyHypershift: the work, and the status that comes with it. */
    method WaitForWork() returns (gone: bool)
      requires Tearing() && hub.w.cfg.override != InfraOnly
      modifies this`hyd, hub
      ensures Tearing() && hyd.infraID == old(hyd.infraID) && hub.w.cfg == old(hub.w.cfg)
      ensures gone ==> hub.w.works == map[]
      ensures old(hub.run) <= hub.run
      ensures calm ==>
                && gone == (hyd.infraID !in old(hub.w.works)) && hyd.version == hub.w.hyd.value.version
                && hub.run == old(hub.run) + (CleanupCalls(old(hub.w).cfg, old(hub.w).works, hyd.infraID) + [Main(TouchStatus)])
    {
      var r := DeleteWorkWaitCleanUp();
      var _ := WriteStatus(TouchStatus);
      return r == Gone;
    }

    /** The second half: the cloud, if it is this controller's to clean up, and then the finalizer. */
    method ReleaseDeployment()
      requires Tearing() && hub.w.works == map[]
      modifies this`hyd, hub
      ensures hub.Valid() && hub.w.main == Destroying
      ensures old(hub.run) <= hub.run
      ensures calm && old(hyd).version == old(hub.w).hyd.value.version ==>
                hub.run == old(hub.run) + (CloudCalls(old(hub.w).cfg, old(hyd).infraID) + [Main(RemoveDestroyFinalizer)])
    {
      if hub.w.cfg.override != Orphan && hub.w.cfg.configure {
        var requeue := DestroyAwsInfrastructure();
        if requeue {
          return;
        }
      }
      RemoveFinalizer();
    }

    /** destroyHypershift, on a copy that is deleting and holds the destroy finalizer. */
    method DestroyHypershift()
      requires hub.Valid() && hub.w.main == Destroying && Holds(hub.w, hyd.infraID)
      requires hub.w.hyd.value.deleting && VersionSound(hyd, hub.w.hyd.value)
      requires ManagedClusterCleanup in hub.w.hyd.value.finalizers ==> ManagedClusterCleanup in hyd.finalizers
      modifies this`hyd, hub
      ensures hub.Valid() && hub.w.main == Destroying
      ensures old(hub.run) <= hub.run
      ensures calm && old(hyd) == old(hub.w.hyd.value) ==>
                hub.run == old(hub.run) + DestroyCalls(old(hub.w).cfg, old(hyd).finalizers, old(hub.w).works, old(hyd).infraID)
    {
      if ManagedClusterCleanup in hyd.finalizers {
        return;
      }
      assert Tearing();
      OnlyOneWork();
      ghost var first := [];
      if hub.w.cfg.override != InfraOnly {
        first := CleanupCalls(hub.w.cfg, hub.w.works, hyd.infraID) + [Main(TouchStatus)];
        var gone := WaitForWork();
        if !gone {
          return;
        }
      }
      Chained(old(hub.run), first, CloudCalls(hub.w.cfg, hyd.infraID) + [Main(RemoveDestroyFinalizer)]);
      ReleaseDeployment();
    }
  }
}
