/**
 Upkeep of HypershiftDeployment.Status.Conditions: the list-update primitive of the API machinery,
 the reconciler's update-on-change, and the copy of work conditions into the deployment.
 */
module Conditions {
  import opened Wrappers
  import opened Api

  /** Types copied from a ManifestWork, whose observed generation is not the deployment's. */
  predicate MirroredFromWork(ctype: ConditionType) {
    ctype.WorkProgressing? || ctype.WorkApplied? || ctype.WorkAvailable? || ctype.WorkDegraded?
  }

  predicate UniqueTypes(conds: seq<Condition>) {
    forall i, j | 0 <= i < j < |conds| :: conds[i].ctype != conds[j].ctype
  }

  /** The first condition of a type, as FindStatusCondition returns it. */
  function Lookup(conds: seq<Condition>, ctype: ConditionType): Option<Condition> {
    if conds == [] then None
    else if conds[0].ctype == ctype then Some(conds[0])
    else Lookup(conds[1..], ctype)
  }

  lemma {:induction false} LookupIsFirst(conds: seq<Condition>, ctype: ConditionType, i: nat)
    requires i <= |conds| && forall k | 0 <= k < i :: conds[k].ctype != ctype
    ensures i < |conds| && conds[i].ctype == ctype ==> Lookup(conds, ctype) == Some(conds[i])
    ensures i == |conds| ==> Lookup(conds, ctype) == None
  {
    if i > 0 {
      LookupIsFirst(conds[1..], ctype, i - 1);
    }
  }

  /** Replaces the first condition of c's type in place, or appends c. */
  function Upsert(conds: seq<Condition>, c: Condition): seq<Condition> {
    if conds == [] then [c]
    else if conds[0].ctype == c.ctype then [c] + conds[1..]
    else [conds[0]] + Upsert(conds[1..], c)
  }

  function UpsertAll(conds: seq<Condition>, incoming: seq<Condition>): seq<Condition>
    decreases |incoming|
  {
    if incoming == [] then conds
    else UpsertAll(Upsert(conds, incoming[0]), incoming[1..])
  }

  /** The last condition of a type. */
  function LastOf(conds: seq<Condition>, ctype: ConditionType): Option<Condition> {
    if conds == [] then None
    else if conds[|conds| - 1].ctype == ctype then Some(conds[|conds| - 1])
    else LastOf(conds[..|conds| - 1], ctype)
  }

  /** The condition setStatusCondition stores: stamped with the deployment's generation. */
  function Stamped(c: Condition, generation: int): Condition {
    c.(observedGeneration := generation)
  }

  function StampAll(conds: seq<Condition>, generation: int): (r: seq<Condition>)
    ensures |r| == |conds|
    ensures forall i | 0 <= i < |conds| :: r[i] == Stamped(conds[i], generation)
  {
    seq(|conds|, i requires 0 <= i < |conds| => Stamped(conds[i], generation))
  }

  /** The decision of updateStatusConditionsOnChange. */
  predicate NeedsUpdate(conds: seq<Condition>, c: Condition) {
    match Lookup(conds, c.ctype)
    case None => true
    case Some(sc) =>
      || (!MirroredFromWork(c.ctype) && sc.observedGeneration != c.observedGeneration)
      || sc.status != c.status
      || sc.reason != c.reason
      || sc.message != c.message
  }

  // ---- the list-update primitive -------------------------------------------------------------

  lemma {:induction false} LookupAfterUpsert(conds: seq<Condition>, c: Condition, ctype: ConditionType)
    ensures Lookup(Upsert(conds, c), ctype) == if ctype == c.ctype then Some(c) else Lookup(conds, ctype)
  {
    if conds != [] && conds[0].ctype != c.ctype {
      LookupAfterUpsert(conds[1..], c, ctype);
    }
  }

  lemma {:induction false} UpsertTypes(conds: seq<Condition>, c: Condition)
    ensures forall d :: d in Upsert(conds, c) ==> d == c || d in conds
    ensures UniqueTypes(conds) ==> UniqueTypes(Upsert(conds, c))
  {
    if conds != [] && conds[0].ctype != c.ctype {
      UpsertTypes(conds[1..], c);
      assert forall d :: d in conds[1..] ==> d in conds;
      var rest := Upsert(conds[1..], c);
      assert forall d :: d in rest ==> d == c || d in conds[1..];
      if UniqueTypes(conds) {
        assert UniqueTypes(conds[1..]);
        forall j | 0 <= j < |rest| ensures rest[j].ctype != conds[0].ctype {
          assert rest[j] in rest;
        }
      }
    } else if conds != [] {
      assert forall d :: d in conds[1..] ==> d in conds;
    }
  }

  lemma {:induction false} UpsertAt(conds: seq<Condition>, c: Condition, i: nat)
    requires i <= |conds|
    requires forall k | 0 <= k < i :: conds[k].ctype != c.ctype
    ensures i < |conds| && conds[i].ctype == c.ctype ==> Upsert(conds, c) == conds[i := c]
    ensures i == |conds| ==> Upsert(conds, c) == conds + [c]
  {
    if i > 0 {
      UpsertAt(conds[1..], c, i - 1);
      assert conds == [conds[0]] + conds[1..];
    }
  }

  /** meta.SetStatusCondition followed by the stamping of setStatusCondition. */
  method SetStatusCondition(hyd: Deployment, ctype: ConditionType, status: string, message: string, reason: string)
    modifies hyd`conditions
    ensures hyd.conditions
         == Upsert(old(hyd.conditions), Condition(ctype, status, hyd.generation, reason, message))
    ensures Lookup(hyd.conditions, ctype) == Some(Condition(ctype, status, hyd.generation, reason, message))
    ensures forall other | other != ctype :: Lookup(hyd.conditions, other) == Lookup(old(hyd.conditions), other)
  {
    var c := Condition(ctype, status, hyd.generation, reason, message);
    forall t ensures Lookup(Upsert(hyd.conditions, c), t) == if t == ctype then Some(c) else Lookup(hyd.conditions, t) {
      LookupAfterUpsert(hyd.conditions, c, t);
    }
    var i := 0;
    while i < |hyd.conditions| && hyd.conditions[i].ctype != ctype
      invariant 0 <= i <= |hyd.conditions|
      invariant hyd.conditions == old(hyd.conditions)
      invariant forall k | 0 <= k < i :: hyd.conditions[k].ctype != ctype
    {
      i := i + 1;
    }
    UpsertAt(hyd.conditions, c, i);
    if i == |hyd.conditions| {
      hyd.conditions := hyd.conditions + [c];
    } else {
      hyd.conditions := hyd.conditions[i := c];
    }
  }

  // ---- update on change ----------------------------------------------------------------------

  /**
   updateStatusConditionsOnChange: `patched` says whether the API server was called, `patchFails`
   is the outcome the call would have, `failed` is the error handed back.
   */
  method UpdateStatusConditionsOnChange(
    hyd: Deployment, ctype: ConditionType, status: string, message: string, reason: string, patchFails: bool)
    returns (patched: bool, failed: bool)
    modifies hyd`conditions
    ensures patched == NeedsUpdate(old(hyd.conditions), Condition(ctype, status, hyd.generation, reason, message))
    ensures failed == (patched && patchFails)
    ensures hyd.conditions == if patched
                              then Upsert(old(hyd.conditions), Condition(ctype, status, hyd.generation, reason, message))
                              else old(hyd.conditions)
    // The deployment shows what is wanted afterwards, and the call was left out if and only if it did before.
    ensures var sc := Lookup(hyd.conditions, ctype);
            && sc.Some? && sc.value.status == status && sc.value.reason == reason && sc.value.message == message
            && (sc.value.observedGeneration == hyd.generation
                || ctype == WorkProgressing || ctype == WorkApplied || ctype == WorkAvailable || ctype == WorkDegraded)
    ensures !patched <==>
              var sc := Lookup(old(hyd.conditions), ctype);
              && sc.Some? && sc.value.status == status && sc.value.reason == reason && sc.value.message == message
              && (sc.value.observedGeneration == hyd.generation
                  || ctype == WorkProgressing || ctype == WorkApplied || ctype == WorkAvailable || ctype == WorkDegraded)
    ensures forall other | other != ctype :: Lookup(hyd.conditions, other) == Lookup(old(hyd.conditions), other)
  {
    var sc: Option<Condition> := None;
    var i := 0;
    while i < |hyd.conditions|
      invariant 0 <= i <= |hyd.conditions|
      invariant hyd.conditions == old(hyd.conditions)
      invariant sc == None
      invariant Lookup(hyd.conditions, ctype) == Lookup(hyd.conditions[i..], ctype)
    {
      if hyd.conditions[i].ctype == ctype {
        sc := Some(hyd.conditions[i]);
        break;
      }
      i := i + 1;
    }
    assert sc == Lookup(hyd.conditions, ctype);
    var differs := sc == None || sc.value.status != status || sc.value.reason != reason || sc.value.message != message;
    if !MirroredFromWork(ctype) {
      differs := differs || sc.value.observedGeneration != hyd.generation;
    }
    patched := differs;
    failed := false;
    if differs {
      SetStatusCondition(hyd, ctype, status, message, reason);
      failed := patchFails;
    }
  }

  /** A repeated identical update writes nothing: the first one left nothing to change. */
  lemma RepeatedUpdateIsSilent(conds: seq<Condition>, c: Condition)
    ensures !NeedsUpdate(if NeedsUpdate(conds, c) then Upsert(conds, c) else conds, c)
  {
    LookupAfterUpsert(conds, c, c.ctype);
  }

  // ---- copying a ManifestWork's conditions -----------------------------------------------------

  /** The loop of syncManifestworkStatusToHypershiftDeployment over work conditions, then feedback. */
  method SyncWorkStatus(hyd: Deployment, workConds: seq<Condition>, feedback: seq<Condition>)
    modifies hyd`conditions
    ensures hyd.conditions == UpsertAll(old(hyd.conditions), StampAll(workConds + feedback, hyd.generation))
  {
    var conds := workConds + feedback;
    ghost var stamped := StampAll(conds, hyd.generation);
    var i := 0;
    while i < |conds|
      invariant 0 <= i <= |conds|
      invariant UpsertAll(hyd.conditions, stamped[i..]) == UpsertAll(old(hyd.conditions), stamped)
    {
      var cond := conds[i];
      SetStatusCondition(hyd, cond.ctype, cond.status, cond.message, cond.reason);
      assert stamped[i..][0] == stamped[i] && stamped[i..][1..] == stamped[i + 1..];
      i := i + 1;
    }
  }

  /** Each type ends as the last incoming condition of that type; types that did not come in keep theirs. */
  lemma {:induction false} LastIncomingWins(conds: seq<Condition>, incoming: seq<Condition>, ctype: ConditionType)
    ensures Lookup(UpsertAll(conds, incoming), ctype)
         == if LastOf(incoming, ctype).Some? then LastOf(incoming, ctype) else Lookup(conds, ctype)
    decreases |incoming|
  {
    if incoming != [] {
      LastIncomingWins(Upsert(conds, incoming[0]), incoming[1..], ctype);
      LookupAfterUpsert(conds, incoming[0], ctype);
      LastOfCons(incoming, ctype);
    }
  }

  lemma {:induction false} LastOfCons(conds: seq<Condition>, ctype: ConditionType)
    requires conds != []
    ensures LastOf(conds, ctype)
         == if LastOf(conds[1..], ctype).Some? then LastOf(conds[1..], ctype)
            else if conds[0].ctype == ctype then Some(conds[0]) else None
  {
    var n := |conds| - 1;
    if n > 0 && conds[n].ctype != ctype {
      LastOfCons(conds[..n], ctype);
      assert conds[1..][..n - 1] == conds[..n][1..];
    }
  }

  /** Every list the controllers can build, by any number of sets, updates and syncs, has one condition per type. */
  lemma {:induction false} ReachableListsAreUnique(conds: seq<Condition>, writes: seq<Condition>)
    requires UniqueTypes(conds)
    ensures UniqueTypes(UpsertAll(conds, writes))
    decreases |writes|
  {
    if writes != [] {
      UpsertTypes(conds, writes[0]);
      ReachableListsAreUnique(Upsert(conds, writes[0]), writes[1..]);
    }
  }
}
