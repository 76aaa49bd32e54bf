/**
 Reconcile of the auto-import reconciler: creating the managed cluster once, marking the deployment with
 a finalizer and an annotation, and detaching the cluster when the deployment is deleted.

 Its patches are merge patches computed from the copy read at the start of the pass. Such a patch
 replaces the finalizer list wholesale by the copy's; the assertions beside the calls show that,
 without an interleaved pass of the main reconciler, this is the same as adding or removing one
 finalizer.
 */
module ImportReconciler {
  import opened Wrappers
  import opened Lifecycle
  import opened HubModel

  // ---- the calls of a healthy pass -----------------------------------------------------------------

  function DetachCalls(hyd: Hyd, mc: Option<ManagedCluster>): seq<Action> {
    if ClusterDown(mc)
    then (if ManagedClusterCleanup in hyd.finalizers then [Import(RemoveImportFinalizer)] else [])
    else if mc.value.deleting then []
    else [Import(DetachCluster)]
  }

  /** `kubeconfig` says that the hosted cluster's kubeconfig is there, or its read fails otherwise than with NotFound. */
  function ImportCalls(hyd: Hyd, mc: Option<ManagedCluster>, kubeconfig: bool): seq<Action> {
    if SaysFalse(hyd.createMc) then []
    else
      (if mc.None? then [Import(CreateCluster)] else [])
      + (if ManagedClusterCleanup !in hyd.finalizers then [Import(SetImportFinalizer)]
         else if kubeconfig || (mc.Some? && mc.value.joined) then [Import(SetAnnotation)]
         else [])
  }

  function PassCalls(hyd: Hyd, mc: Option<ManagedCluster>, kubeconfig: bool): seq<Action> {
    if hyd.deleting then DetachCalls(hyd, mc) else ImportCalls(hyd, mc, kubeconfig)
  }

  function ImportPassCalls(w: World, kubeconfig: bool): seq<Action>
    requires w.hyd.Some?
  {
    [Import(BeginImport)] + PassCalls(w.hyd.value, w.mc, kubeconfig) + [Import(EndImport)]
  }

  class Importer {
    const hub: Hub
    const calm: bool
    const hyd: Hyd

    constructor (hub: Hub, calm: bool, hyd: Hyd)
      ensures this.hub == hub && this.calm == calm && this.hyd == hyd
    {
      this.hub := hub;
      this.calm := calm;
      this.hyd := hyd;
    }

    /** The copy was read in this pass, and since then the others did only what the pass can rely on. */
    ghost predicate Synced()
      reads this, hub
    {
      hub.Valid() && hub.w.imp != ImportIdle && HydImportRely(Some(hyd), hub.w.hyd)
    }

    /** ensureManagedCluster, as far as the cluster's existence goes; its metadata have a module of their own. */
    method EnsureManagedCluster() returns (mc: Option<ManagedCluster>)
      requires Synced() && hub.w.imp == Importing && !SaysFalse(hyd.createMc)
      modifies hub
      ensures Synced() && hub.w.imp == Importing
      ensures old(hub.run) <= hub.run
      ensures calm ==>
                && mc == Some(if old(hub.w.mc).None? then ManagedCluster(false, false, false) else old(hub.w.mc).value)
                && hub.run == old(hub.run) + (if old(hub.w.mc).None? then [Import(CreateCluster)] else [])
                && hub.w.hyd == old(hub.w.hyd)
    {
      var readable := Succeeds(calm);
      if !readable {
        return None;
      }
      hub.InterfereWithImport(calm);
      mc := hub.w.mc;
      hub.InterfereWithImport(calm);
      var o := Call(calm);
      if mc.Some? {
        return if o == Acknowledged then mc else None;
      }
      if o == NoEffect {
        return None;
      }
      hub.Do(Import(CreateCluster));
      return if o == Acknowledged then hub.w.mc else None;
    }

    /** setFinalizer; a deleting object refuses it. */
    method SetFinalizer()
      requires Synced() && hub.w.imp == Importing && ManagedClusterCleanup !in hyd.finalizers
      modifies hub
      ensures hub.Valid() && hub.w.imp != ImportIdle
      ensures old(hub.run) <= hub.run
      ensures calm && old(hub.w.hyd) == Some(hyd) && !hyd.deleting ==>
                hub.run == old(hub.run) + [Import(SetImportFinalizer)]
    {
      hub.InterfereWithImport(calm);
      var o := Call(calm);
      if o == NoEffect || hub.w.hyd == None || hub.w.hyd.value.deleting {
        return;
      }
      assert hyd.finalizers + {ManagedClusterCleanup} == hub.w.hyd.value.finalizers + {ManagedClusterCleanup};
      hub.Do(Import(SetImportFinalizer));
    }

    /** removeFinalizer. */
    method RemoveFinalizer()
      requires Synced() && hub.w.imp == Detaching && hyd.deleting && ClusterDown(hub.w.mc)
      modifies hub
      ensures hub.Valid() && hub.w.imp != ImportIdle
      ensures old(hub.run) <= hub.run
      ensures calm ==> hub.run == old(hub.run) + if ManagedClusterCleanup in hyd.finalizers
                                                 then [Import(RemoveImportFinalizer)] else []
    {
      if ManagedClusterCleanup !in hyd.finalizers {
        return;
      }
      hub.InterfereWithImport(calm);
      var o := Call(calm);
      if o == NoEffect {
        return;
      }
      assert hyd.finalizers - {ManagedClusterCleanup} == hub.w.hyd.value.finalizers - {ManagedClusterCleanup};
      hub.Do(Import(RemoveImportFinalizer));
    }

    /** ensureCreateManagedClusterAnnotationFalse. */
    method EnsureAnnotationFalse()
      requires Synced() && hub.w.imp == Importing && ManagedClusterCleanup in hyd.finalizers
      modifies hub
      ensures hub.Valid() && hub.w.imp != ImportIdle
      ensures old(hub.run) <= hub.run
      ensures calm ==> hub.run == old(hub.run) + if hyd.createMc == ExactFalse then [] else [Import(SetAnnotation)]
    {
      if hyd.createMc == ExactFalse {
        return;
      }
      hub.InterfereWithImport(calm);
      var o := Call(calm);
      if o != NoEffect {
        hub.Do(Import(SetAnnotation));
      }
    }

    /** deleteManagedCluster. */
    method DeleteManagedCluster()
      requires Synced() && hub.w.imp == Detaching && hyd.deleting
      modifies hub
      ensures hub.Valid() && hub.w.imp != ImportIdle
      ensures old(hub.run) <= hub.run
      ensures calm ==> hub.run == old(hub.run) + DetachCalls(hyd, old(hub.w.mc))
      ensures calm && old(hub.w).mc.Some? && old(hub.w).mc.value.deleting && old(hub.w).mc.value.workFinalizer ==>
                hub.run == old(hub.run)
      ensures calm && old(hub.w).mc.Some? && !old(hub.w).mc.value.deleting ==>
                hub.run == old(hub.run) + [Import(DetachCluster)]
    {
      var readable := Succeeds(calm);
      if !readable {
        return;
      }
      hub.InterfereWithImport(calm);
      if ClusterDown(hub.w.mc) {
        RemoveFinalizer();
        return;
      }
      if hub.w.mc.value.deleting {
        return;
      }
      hub.InterfereWithImport(calm);
      var o := Call(calm);
      if o != NoEffect && hub.w.mc.Some? && !hub.w.mc.value.deleting {
        hub.Do(Import(DetachCluster));
      }
    }

    /** The import proper, on a live deployment whose annotation does not forbid it. */
    method ImportCluster(kubeconfig: bool)
      requires Synced() && hub.w.imp == Importing && !SaysFalse(hyd.createMc)
      modifies hub
      ensures hub.Valid() && hub.w.imp != ImportIdle
      ensures old(hub.run) <= hub.run
      ensures calm && old(hub.w.hyd) == Some(hyd) && !hyd.deleting ==>
                hub.run == old(hub.run) + ImportCalls(hyd, old(hub.w.mc), kubeconfig)
    {
      var mc := EnsureManagedCluster();
      if mc.None? {
        return;
      }
      if ManagedClusterCleanup !in hyd.finalizers {
        SetFinalizer();
        return;
      }
      if !mc.value.joined && !kubeconfig {
        return;
      }
      EnsureAnnotationFalse();
    }

    /** The pass between its first read and its end. */
    method Pass(kubeconfig: bool)
      requires Synced() && (hyd.deleting ==> hub.w.imp == Detaching)
      requires !hyd.deleting && !SaysFalse(hyd.createMc) ==> hub.w.imp == Importing
      modifies hub
      ensures hub.Valid() && hub.w.imp != ImportIdle
      ensures old(hub.run) <= hub.run
      ensures calm && old(hub.w.hyd) == Some(hyd) ==> hub.run == old(hub.run) + PassCalls(hyd, old(hub.w.mc), kubeconfig)
    {
      if hyd.deleting {
        DeleteManagedCluster();
      } else if !SaysFalse(hyd.createMc) {
        ImportCluster(kubeconfig);
      }
    }
  }

  /** One pass, from the moment the deployment was read. */
  method RunPass(hub: Hub, calm: bool, kubeconfig: bool)
    requires hub.Valid() && hub.w.hyd.Some? && ImportEnabled(hub.w, BeginImport)
    modifies hub
    ensures hub.Valid() && hub.w.imp == ImportIdle
    ensures old(hub.run) <= hub.run
    ensures calm ==> hub.run == old(hub.run) + ImportPassCalls(old(hub.w), kubeconfig)
  {
    ghost var calls := PassCalls(hub.w.hyd.value, hub.w.mc, kubeconfig);
    Bracketed(hub.run, Import(BeginImport), calls, Import(EndImport));
    hub.Do(Import(BeginImport));
    var importer := new Importer(hub, calm, hub.w.hyd.value);
    importer.Pass(kubeconfig);
    hub.Do(Import(EndImport));
  }

  /** Reconcile, if it gets its turn: an import pass is not interleaved with a pass that rewrites the deployment. */
  method Reconcile(hub: Hub, calm: bool, kubeconfig: bool)
    requires hub.Valid() && hub.w.imp == ImportIdle
    modifies hub
    ensures hub.Valid() && hub.w.imp == ImportIdle
    ensures old(hub.run) <= hub.run
    ensures calm && old(hub.w.hyd).Some? && !Rewriting(old(hub.w)) ==>
              hub.run == old(hub.run) + ImportPassCalls(old(hub.w), kubeconfig)
  {
    hub.InterfereWithImport(calm);
    var readable := Succeeds(calm);
    if readable && hub.w.hyd.Some? && !Rewriting(hub.w) {
      RunPass(hub, calm, kubeconfig);
    }
  }
}
