/**
 The API server and the cloud as the reconcilers see them: a world they share with the other actors,
 which may take any number of steps between two calls. The hub records the run, so a Reconcile method
 that keeps `Valid` is proved to have taken only steps of the lifecycle.
 */
module HubModel {
  import opened Wrappers
  import opened Lifecycle
  import opened Invariant
  import opened RoleMigration

  /** A call is acknowledged, has no effect, or has its effect while the caller sees an error. */
  datatype Outcome = Acknowledged | NoEffect | Lost

  // ---- what the main reconciler can rely on -------------------------------------------------------

  /** What others may do to the deployment while a main pass runs; nothing but delete it, if the pass rewrites it. */
  predicate HydRely(rewriting: bool, w: Option<Hyd>, v: Option<Hyd>) {
    && (w.None? ==> v.None?)
    && (w.Some? && Destroy in w.value.finalizers ==> v.Some?)
    && (w.Some? && v.Some? ==>
          var h, k := w.value, v.value;
          && k.infraID == h.infraID && k.infraReady == h.infraReady && k.iamReady == h.iamReady
          && (HasDeprecatedRoles(k.cluster) ==> HasDeprecatedRoles(h.cluster))
          && (h.deleting ==> k.deleting)
          && (Destroy in k.finalizers <==> Destroy in h.finalizers)
          && (h.deleting && ManagedClusterCleanup in k.finalizers ==> ManagedClusterCleanup in h.finalizers)
          && h.version <= k.version && (h.version == k.version ==> h == k)
          && (rewriting ==> k.finalizers == h.finalizers && k.createMc == h.createMc
                            && k.cluster == h.cluster && k.pools == h.pools))
  }

  /** What others may do to a work while a main pass runs. */
  predicate WorkRely(w: Work, v: Work) {
    v.generation == w.generation && v.spec == w.spec && v.deleting == w.deleting && (UpToDate(w) ==> UpToDate(v))
  }

  predicate WorksRely(w: map<string, Work>, v: map<string, Work>) {
    && (forall id | id in v :: id in w && WorkRely(w[id], v[id]))
    && (forall id | id in w :: id in v || w[id].deleting)
  }

  predicate MainRely(w: World, v: World) {
    && v.cfg == w.cfg && v.cloud == w.cloud && v.main == w.main
    && HydRely(Rewriting(w), w.hyd, v.hyd)
    && WorksRely(w.works, v.works)
  }

  lemma AgentKeepsMainRely(w: World, a: AgentAction)
    requires AgentEnabled(w, a)
    ensures MainRely(w, AgentApply(w, a))
  {
  }

  lemma ImportKeepsMainRely(w: World, a: ImportAction)
    requires PassesAreOrderly(w) && ImportEnabled(w, a)
    ensures MainRely(w, ImportApply(w, a))
  {
    if a.RemoveImportFinalizer? && Destroy in w.hyd.value.finalizers {
      assert Destroy in w.hyd.value.finalizers - {ManagedClusterCleanup};
    }
  }

  lemma UserKeepsMainRely(w: World, a: UserAction)
    requires UserEnabled(w, a)
    ensures MainRely(w, UserApply(w, a))
  {
  }

  lemma ControllerKeepsMainRely(w: World, a: ControllerAction)
    requires ControllerEnabled(w, a)
    ensures MainRely(w, ControllerApply(w, a))
  {
  }

  lemma OthersKeepMainRely(w: World, a: Action)
    requires PassesAreOrderly(w) && Enabled(w, a) && !a.Main?
    ensures MainRely(w, Apply(w, a))
  {
    match a
    case User(u) => UserKeepsMainRely(w, u);
    case Controller(c) => ControllerKeepsMainRely(w, c);
    case Agent(g) => AgentKeepsMainRely(w, g);
    case Import(i) => ImportKeepsMainRely(w, i);
  }

  lemma MainRelyTransitive(u: World, v: World, w: World)
    requires MainRely(u, v) && MainRely(v, w)
    ensures MainRely(u, w)
  {
    forall id | id in w.works ensures id in u.works && WorkRely(u.works[id], w.works[id]) {
      assert WorkRely(v.works[id], w.works[id]);
      assert WorkRely(u.works[id], v.works[id]);
    }
    forall id | id in u.works && id !in w.works ensures u.works[id].deleting {
      if id in v.works {
        assert WorkRely(u.works[id], v.works[id]);
      }
    }
  }

  // ---- what the auto-import reconciler can rely on --------------------------------------------------

  /** What others may do to the deployment while an import pass runs: deletion may start, the main pass may finish it off. */
  predicate HydImportRely(h: Option<Hyd>, k: Option<Hyd>) {
    && (h.None? ==> k.None?)
    && (h.Some? && ManagedClusterCleanup in h.value.finalizers ==>
          k.Some? && k.value.finalizers == h.value.finalizers)
    && (h.Some? && k.Some? ==>
          && k.value.createMc == h.value.createMc
          && (h.value.deleting ==> k.value.deleting)
          && (!k.value.deleting ==> k.value.finalizers == h.value.finalizers)
          && (ManagedClusterCleanup in k.value.finalizers ==> ManagedClusterCleanup in h.value.finalizers))
  }

  predicate ImportRely(w: World, v: World) {
    && v.cfg == w.cfg && v.imp == w.imp
    && (w.hyd.None? ==> v.hyd.None?)
    && (w.mc.None? ==> v.mc.None?)
    && (w.imp == Detaching && ClusterDown(w.mc) ==> ClusterDown(v.mc))
    && (w.imp != ImportIdle ==> HydImportRely(w.hyd, v.hyd))
  }

  lemma MainKeepsImportRely(w: World, a: MainAction)
    requires MainEnabled(w, a) && PassesAreOrderly(w)
    ensures ImportRely(w, MainApply(w, a))
  {
  }

  lemma UserKeepsImportRely(w: World, a: UserAction)
    requires UserEnabled(w, a)
    ensures ImportRely(w, UserApply(w, a))
  {
  }

  lemma ControllerKeepsImportRely(w: World, a: ControllerAction)
    requires ControllerEnabled(w, a)
    ensures ImportRely(w, ControllerApply(w, a))
  {
  }

  lemma AgentKeepsImportRely(w: World, a: AgentAction)
    requires AgentEnabled(w, a)
    ensures ImportRely(w, AgentApply(w, a))
  {
  }

  lemma OthersKeepImportRely(w: World, a: Action)
    requires PassesAreOrderly(w) && Enabled(w, a) && !a.Import?
    ensures ImportRely(w, Apply(w, a))
  {
    match a
    case User(u) => UserKeepsImportRely(w, u);
    case Controller(c) => ControllerKeepsImportRely(w, c);
    case Agent(g) => AgentKeepsImportRely(w, g);
    case Main(m) => MainKeepsImportRely(w, m);
  }

  lemma ImportRelyTransitive(u: World, v: World, w: World)
    requires ImportRely(u, v) && ImportRely(v, w)
    ensures ImportRely(u, w)
  {
  }

  /**
   What patchHypershiftDeploymentResource stores: the caller's copy, spec and metadata alike, except
   for the deletion mark, the resource version and the status, which that endpoint does not take.
   */
  function Overwritten(stored: Hyd, copy: Hyd): Hyd {
    copy.(deleting := stored.deleting, version := stored.version + 1,
          infraReady := stored.infraReady, iamReady := stored.iamReady)
  }

  lemma Chained(run: seq<Action>, first: seq<Action>, second: seq<Action>)
    ensures run + first + second == run + (first + second)
  {
  }

  lemma Bracketed(run: seq<Action>, first: Action, body: seq<Action>, last: Action)
    ensures run + [first] + body + [last] == run + ([first] + body + [last])
  {
  }

  // ---- the hub -----------------------------------------------------------------------------------

  /**
   `w` is what a fresh deployment has become after `run`. The quantifier over the prefix of full length
   keeps the solver from unfolding the run where a proof has no use for it.
   */
  ghost predicate Records(start: World, run: seq<Action>, w: World) {
    && Initial(start)
    && forall n: nat | n == |run| :: Legal(start, run[..n]) && w == After(start, run[..n])
  }

  class Hub {
    var w: World
    ghost const start: World
    ghost var run: seq<Action>

    ghost predicate Valid()
      reads this
    {
      Records(start, run, w)
    }

    /** The state of the hub was reached by a run, so the invariant holds of it. */
    lemma Reachable()
      requires Valid()
      ensures Initial(start) && Legal(start, run) && w == After(start, run)
      ensures Inv(w)
    {
      assert run[..|run|] == run;
      InitialInv(start);
      RunsKeepInv(start, run);
    }

    constructor (w0: World)
      requires Initial(w0)
      ensures Valid() && w == w0 && run == []
    {
      w := w0;
      start := w0;
      run := [];
      new;
      assert run[..0] == [];
    }

    /** One step of one actor. */
    method Do(a: Action)
      requires Valid() && Enabled(w, a)
      modifies this
      ensures Valid()
      ensures w == Apply(old(w), a) && run == old(run) + [a]
    {
      Reachable();
      RunsCompose(start, run, [a]);
      w := Apply(w, a);
      run := run + [a];
      assert run[..|run|] == run;
    }

    /** Any number of steps of anyone but the main reconciler; none in a calm environment. */
    method InterfereWithMain(calm: bool)
      requires Valid()
      modifies this
      ensures Valid() && MainRely(old(w), w)
      ensures old(run) <= run && forall i | |old(run)| <= i < |run| :: !run[i].Main?
      ensures calm ==> w == old(w) && run == old(run)
    {
      var steps: nat := *;
      if calm {
        steps := 0;
      }
      while steps > 0
        invariant Valid() && MainRely(old(w), w)
        invariant old(run) <= run && forall i | |old(run)| <= i < |run| :: !run[i].Main?
        invariant calm ==> steps == 0 && w == old(w) && run == old(run)
      {
        var a: Action := *;
        if !a.Main? && Enabled(w, a) {
          Reachable();
          OthersKeepMainRely(w, a);
          MainRelyTransitive(old(w), w, Apply(w, a));
          Do(a);
        }
        steps := steps - 1;
      }
    }

    /** Any number of steps of anyone but the auto-import reconciler. */
    method InterfereWithImport(calm: bool)
      requires Valid()
      modifies this
      ensures Valid() && ImportRely(old(w), w)
      ensures old(run) <= run && forall i | |old(run)| <= i < |run| :: !run[i].Import?
      ensures calm ==> w == old(w) && run == old(run)
    {
      var steps: nat := *;
      if calm {
        steps := 0;
      }
      while steps > 0
        invariant Valid() && ImportRely(old(w), w)
        invariant old(run) <= run && forall i | |old(run)| <= i < |run| :: !run[i].Import?
        invariant calm ==> steps == 0 && w == old(w) && run == old(run)
      {
        var a: Action := *;
        if !a.Import? && Enabled(w, a) {
          Reachable();
          OthersKeepImportRely(w, a);
          ImportRelyTransitive(old(w), w, Apply(w, a));
          Do(a);
        }
        steps := steps - 1;
      }
    }
  }

  /** The outcome of a call; a calm environment acknowledges all of them. */
  method Call(calm: bool) returns (o: Outcome)
    ensures calm ==> o == Acknowledged
  {
    o := *;
    if calm {
      o := Acknowledged;
    }
  }

  /** Whether a read or a cloud call succeeds, or a status write has something to change; in a calm environment it is so. */
  method Succeeds(calm: bool) returns (ok: bool)
    ensures calm ==> ok
  {
    ok := *;
    ok := ok || calm;
  }
}
