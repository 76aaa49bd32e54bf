/**
 The etcd encryption key over whole runs: while every update of the work is a round that could read the
 stored payload and whose user supplies no secret of the key's name, the key in the stored payload never
 changes, whatever all the actors do in between.
 */
module EncryptionKey {
  import opened Wrappers
  import opened Payload
  import opened Lifecycle
  import opened Invariant
  import Guarantees

  /** An update of a work is one round of the loaders over the payload it replaces, and one that keeps the key. */
  ghost predicate UpdateKeepsKey(w: World, a: Action, name: string)
    requires Enabled(w, a)
  {
    a.Main? && a.main.UpdateWork? ==>
      exists r: Round ::
        && KeepsKey(w.cfg.hostingNamespace, w.cfg.byReference, r, name)
        && AfterRound(Some(w.works[a.main.id].spec.payload), r) == Some(a.main.payload)
  }

  ghost predicate UpdatesKeepKey(w: World, run: seq<Action>, name: string)
    requires Legal(w, run)
    decreases |run|
  {
    run == [] || (UpdateKeepsKey(w, run[0], name) && UpdatesKeepKey(Apply(w, run[0]), run[1..], name))
  }

  lemma StoredSecretsInNamespace(w: World, id: string)
    requires Inv(w) && id in w.works
    ensures SecretsIn(w.cfg.hostingNamespace, w.works[id].spec.payload)
  {
    assert WorkIsGood(w, id, w.works[id]);
  }

  lemma StepKeepsKey(w: World, a: Action, id: string, name: string)
    requires Inv(w) && Enabled(w, a) && UpdateKeepsKey(w, a, name)
    requires id in w.works && id in Apply(w, a).works
    requires FindSecret(w.works[id].spec.payload, name).Some?
    ensures FindSecret(Apply(w, a).works[id].spec.payload, name) == FindSecret(w.works[id].spec.payload, name)
  {
    var stored, after := w.works[id].spec.payload, Apply(w, a).works[id].spec.payload;
    if after != stored {
      Guarantees.PayloadStep(w, a, id);
      StoredSecretsInNamespace(w, id);
      var ns, byReference := w.cfg.hostingNamespace, w.cfg.byReference;
      var r :| KeepsKey(ns, byReference, r, name) && AfterRound(Some(stored), r) == Some(after);
      RoundKeepsKey(ns, byReference, stored, r, name);
    }
  }

  lemma MainKeepsWorks(w: World, a: MainAction)
    requires MainEnabled(w, a)
    ensures w.works.Keys <= MainApply(w, a).works.Keys
  {
  }

  lemma OnlyRemovalRemoves(w: World, a: Action, id: string)
    requires Enabled(w, a) && id in w.works && id !in Apply(w, a).works
    ensures a == Agent(FinishRemoval(id))
  {
    if a.Main? {
      MainKeepsWorks(w, a.main);
    }
  }

  lemma {:induction false} KeyIsStable(w: World, run: seq<Action>, id: string, name: string)
    requires Inv(w) && Legal(w, run) && UpdatesKeepKey(w, run, name)
    requires id in w.works && id in After(w, run).works
    requires FindSecret(w.works[id].spec.payload, name).Some?
    ensures FindSecret(After(w, run).works[id].spec.payload, name) == FindSecret(w.works[id].spec.payload, name)
    decreases |run|
  {
    if run != [] {
      var v := Apply(w, run[0]);
      StepKeepsInv(w, run[0]);
      if id !in v.works {
        // A work that is removed is gone for good.
        OnlyRemovalRemoves(w, run[0], id);
        assert WorkIsGood(w, id, w.works[id]);
        Guarantees.NothingComesBack(v, run[1..], id);
      } else {
        StepKeepsKey(w, run[0], id, name);
        KeyIsStable(v, run[1..], id, name);
      }
    }
  }

  /** From any state a run can reach, over any continuation of it: a stored key stays as it is. */
  lemma KeyIsStableInRuns(w0: World, run: seq<Action>, more: seq<Action>, id: string, name: string)
    requires Initial(w0) && Legal(w0, run) && Legal(After(w0, run), more)
    requires UpdatesKeepKey(After(w0, run), more, name)
    requires id in After(w0, run).works && id in After(After(w0, run), more).works
    requires FindSecret(After(w0, run).works[id].spec.payload, name).Some?
    ensures FindSecret(After(After(w0, run), more).works[id].spec.payload, name)
         == FindSecret(After(w0, run).works[id].spec.payload, name)
  {
    Guarantees.ReachableInv(w0, run);
    KeyIsStable(After(w0, run), more, id, name);
  }
}
