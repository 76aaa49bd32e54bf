/**
 From the per-resource feedback of a ManifestWork to conditions of the deployment: one summary
 condition for all node pools, and up to two conditions for each hosted cluster entry.
 */
module StatusFeedback {
  import opened Wrappers
  import opened Api
  import opened Conditions

  const NODE_POOLS_PROVISIONED := "NodePoolsProvisioned"

  /** The JSON-path names requested in the work's feedback rules. */
  datatype FeedbackName = Reason | StatusFlag | Message | Progress | OtherName(name: string)

  datatype FeedbackValue = FeedbackValue(name: FeedbackName, value: string)

  datatype Resource = HostedClusters | NodePools | OtherResource(name: string)

  datatype ResourceId = ResourceId(group: string, resource: Resource, name: string, namespace: string)

  datatype ManifestStatus = ManifestStatus(id: ResourceId, values: seq<FeedbackValue>)

  /** The condition that says all node pools are provisioned. */
  const PROVISIONED := Condition(NodePoolReady, TRUE, 0, NODE_POOLS_PROVISIONED, "")

  // ---- feedback values of one resource -----------------------------------------------------------

  /** The last value with this name, or the empty string. */
  function ValueOf(values: seq<FeedbackValue>, name: FeedbackName): string {
    if values == [] then ""
    else if values[|values| - 1].name == name then values[|values| - 1].value
    else ValueOf(values[..|values| - 1], name)
  }

  function FeedbackCondition(ctype: ConditionType, values: seq<FeedbackValue>): Option<Condition> {
    var c := if ctype == HostedClusterProgress
             then Condition(ctype, TRUE, 0, ValueOf(values, Progress), "")
             else Condition(ctype, ValueOf(values, StatusFlag), 0, ValueOf(values, Reason), ValueOf(values, Message));
    if c.reason == "" || c.status == "" then None else Some(c)
  }

  /** feedbackToCondition; None stands for its `false` result. */
  method FeedbackToCondition(ctype: ConditionType, values: seq<FeedbackValue>) returns (r: Option<Condition>)
    ensures r == FeedbackCondition(ctype, values)
  {
    var status, reason, message := "", "", "";
    if ctype == HostedClusterProgress {
      for i := 0 to |values|
        invariant reason == ValueOf(values[..i], Progress)
      {
        assert values[..i + 1][..i] == values[..i];
        if values[i].name == Progress {
          reason := values[i].value;
        }
      }
      status := TRUE;
    } else {
      for i := 0 to |values|
        invariant reason == ValueOf(values[..i], Reason)
        invariant status == ValueOf(values[..i], StatusFlag)
        invariant message == ValueOf(values[..i], Message)
      {
        assert values[..i + 1][..i] == values[..i];
        if values[i].name == Reason {
          reason := values[i].value;
        }
        if values[i].name == StatusFlag {
          status := values[i].value;
        }
        if values[i].name == Message {
          message := values[i].value;
        }
      }
    }
    assert values[..|values|] == values;
    if |reason| == 0 || |status| == 0 {
      return None;
    }
    return Some(Condition(ctype, status, 0, reason, message));
  }

  /** `v` is the last value with this name; it is empty if there is none. */
  predicate HasLast(values: seq<FeedbackValue>, name: FeedbackName, v: string) {
    || (exists i | 0 <= i < |values| ::
          values[i] == FeedbackValue(name, v) && forall k | i < k < |values| :: values[k].name != name)
    || (v == "" && forall k | 0 <= k < |values| :: values[k].name != name)
  }

  lemma {:induction false} ValueOfIsLast(values: seq<FeedbackValue>, name: FeedbackName, v: string)
    ensures HasLast(values, name, v) <==> v == ValueOf(values, name)
  {
    if values != [] {
      var n := |values| - 1;
      if values[n].name == name {
        assert values[n] == FeedbackValue(name, values[n].value);
      } else {
        ValueOfIsLast(values[..n], name, v);
        assert forall i | 0 <= i < n :: values[..n][i] == values[i];
      }
    }
  }

  /** The values say that the hosted cluster, or a pool, is in the state `c` reports. */
  predicate Says(values: seq<FeedbackValue>, c: Condition) {
    && c.observedGeneration == 0 && c.reason != "" && c.status != ""
    && if c.ctype == HostedClusterProgress
       then c.status == "True" && c.message == "" && HasLast(values, Progress, c.reason)
       else HasLast(values, StatusFlag, c.status) && HasLast(values, Reason, c.reason) && HasLast(values, Message, c.message)
  }

  lemma FeedbackConditionIff(values: seq<FeedbackValue>, c: Condition)
    ensures FeedbackCondition(c.ctype, values) == Some(c) <==> Says(values, c)
  {
    if c.ctype == HostedClusterProgress {
      ValueOfIsLast(values, Progress, c.reason);
    } else {
      ValueOfIsLast(values, StatusFlag, c.status);
      ValueOfIsLast(values, Reason, c.reason);
      ValueOfIsLast(values, Message, c.message);
    }
  }

  // ---- aggregation over all resources ------------------------------------------------------------

  /** What one entry contributes: a node-pool condition, or hosted-cluster conditions, if it is asked for and well formed. */
  function PoolsOf(e: ManifestStatus, ids: set<ResourceId>): seq<Condition> {
    if e.id in ids && e.id.resource == NodePools then AsList(FeedbackCondition(NodePoolReady, e.values)) else []
  }

  function ClustersOf(e: ManifestStatus, ids: set<ResourceId>): seq<Condition> {
    if e.id in ids && e.id.resource == HostedClusters
    then AsList(FeedbackCondition(HostedClusterAvailable, e.values))
         + AsList(FeedbackCondition(HostedClusterProgress, e.values))
    else []
  }

  function MatchedPools(entries: seq<ManifestStatus>, ids: set<ResourceId>): seq<Condition> {
    if entries == [] then []
    else MatchedPools(entries[..|entries| - 1], ids) + PoolsOf(entries[|entries| - 1], ids)
  }

  function MatchedClusters(entries: seq<ManifestStatus>, ids: set<ResourceId>): seq<Condition> {
    if entries == [] then []
    else MatchedClusters(entries[..|entries| - 1], ids) + ClustersOf(entries[|entries| - 1], ids)
  }

  function AsList(c: Option<Condition>): seq<Condition> {
    if c.None? then [] else [c.value]
  }

  /** The entry belongs to a hosted cluster the work was asked about, and reports `c`. */
  predicate ClusterReports(e: ManifestStatus, ids: set<ResourceId>, c: Condition) {
    && e.id in ids && e.id.resource == HostedClusters
    && (c.ctype == HostedClusterAvailable || c.ctype == HostedClusterProgress) && Says(e.values, c)
  }

  /** Likewise for a node pool. */
  predicate PoolReports(e: ManifestStatus, ids: set<ResourceId>, c: Condition) {
    e.id in ids && e.id.resource == NodePools && c.ctype == NodePoolReady && Says(e.values, c)
  }

  lemma ClustersOfIff(e: ManifestStatus, ids: set<ResourceId>, c: Condition)
    ensures c in ClustersOf(e, ids) <==> ClusterReports(e, ids, c)
  {
    FeedbackConditionIff(e.values, c);
  }

  lemma PoolsOfIff(e: ManifestStatus, ids: set<ResourceId>, c: Condition)
    ensures c in PoolsOf(e, ids) <==> PoolReports(e, ids, c)
  {
    FeedbackConditionIff(e.values, c);
  }

  predicate SomeClusterReports(entries: seq<ManifestStatus>, ids: set<ResourceId>, c: Condition) {
    exists i | 0 <= i < |entries| :: ClusterReports(entries[i], ids, c)
  }

  predicate SomePoolReports(entries: seq<ManifestStatus>, ids: set<ResourceId>, c: Condition) {
    exists i | 0 <= i < |entries| :: PoolReports(entries[i], ids, c)
  }

  lemma SomeReportsSnoc(entries: seq<ManifestStatus>, e: ManifestStatus, ids: set<ResourceId>, c: Condition)
    ensures SomeClusterReports(entries + [e], ids, c) <==> SomeClusterReports(entries, ids, c) || ClusterReports(e, ids, c)
    ensures SomePoolReports(entries + [e], ids, c) <==> SomePoolReports(entries, ids, c) || PoolReports(e, ids, c)
  {
    var all, n := entries + [e], |entries|;
    assert all[n] == e;
    assert forall i | 0 <= i < n :: all[i] == entries[i];
  }

  lemma {:induction false} MatchedIff(entries: seq<ManifestStatus>, ids: set<ResourceId>, c: Condition)
    ensures c in MatchedClusters(entries, ids) <==> SomeClusterReports(entries, ids, c)
    ensures c in MatchedPools(entries, ids) <==> SomePoolReports(entries, ids, c)
  {
    if entries != [] {
      var before, last := entries[..|entries| - 1], entries[|entries| - 1];
      assert entries == before + [last];
      MatchedIff(before, ids, c);
      SomeReportsSnoc(before, last, ids, c);
      ClustersOfIff(last, ids, c);
      PoolsOfIff(last, ids, c);
    }
  }

  predicate AllTrue(pools: seq<Condition>) {
    forall c | c in pools :: c.status == TRUE
  }

  /** The last pool condition that is not True. */
  function LastFailing(pools: seq<Condition>): (r: Condition)
    requires !AllTrue(pools)
    ensures r in pools && r.status != TRUE
  {
    var n := |pools| - 1;
    if pools[n].status != TRUE then pools[n]
    else
      AllTrueSplit(pools);
      LastFailing(pools[..n])
  }

  lemma AllTrueSplit(pools: seq<Condition>)
    requires pools != []
    ensures AllTrue(pools) <==> AllTrue(pools[..|pools| - 1]) && pools[|pools| - 1].status == TRUE
  {
    assert pools == pools[..|pools| - 1] + [pools[|pools| - 1]];
  }

  /** What the deployment should say about its node pools. */
  function PoolSummary(pools: seq<Condition>): Option<Condition> {
    if pools == [] then None
    else if AllTrue(pools) then Some(PROVISIONED)
    else Some(LastFailing(pools))
  }

  /** What the loop carries while it runs: the first pool until one fails, then the last failing one. */
  function RunningPool(pools: seq<Condition>): Option<Condition> {
    if pools == [] then None
    else if AllTrue(pools) then Some(pools[0])
    else Some(LastFailing(pools))
  }

  /** The conditions of `conds` that are about node pools, and the others. */
  function PoolsOnly(conds: seq<Condition>): seq<Condition> {
    if conds == [] then []
    else (if conds[0].ctype == NodePoolReady then [conds[0]] else []) + PoolsOnly(conds[1..])
  }

  function WithoutPools(conds: seq<Condition>): seq<Condition> {
    if conds == [] then []
    else (if conds[0].ctype == NodePoolReady then [] else [conds[0]]) + WithoutPools(conds[1..])
  }

  lemma Regroup(x: seq<Condition>, y: seq<Condition>, z: seq<Condition>)
    ensures x + y + z == x + (y + z)
  {
  }

  lemma {:induction false} PoolsOnlyAppend(a: seq<Condition>, b: seq<Condition>)
    ensures PoolsOnly(a + b) == PoolsOnly(a) + PoolsOnly(b)
  {
    if a == [] {
      assert a + b == b;
    } else {
      var first := if a[0].ctype == NodePoolReady then [a[0]] else [];
      assert (a + b)[1..] == a[1..] + b;
      PoolsOnlyAppend(a[1..], b);
      Regroup(first, PoolsOnly(a[1..]), PoolsOnly(b));
    }
  }

  lemma {:induction false} WithoutPoolsAppend(a: seq<Condition>, b: seq<Condition>)
    ensures WithoutPools(a + b) == WithoutPools(a) + WithoutPools(b)
  {
    if a == [] {
      assert a + b == b;
    } else {
      var first := if a[0].ctype != NodePoolReady then [a[0]] else [];
      assert (a + b)[1..] == a[1..] + b;
      WithoutPoolsAppend(a[1..], b);
      Regroup(first, WithoutPools(a[1..]), WithoutPools(b));
    }
  }

  lemma {:induction false} NoPools(conds: seq<Condition>)
    requires forall c | c in conds :: c.ctype != NodePoolReady
    ensures WithoutPools(conds) == conds && PoolsOnly(conds) == []
  {
    if conds != [] {
      assert forall c | c in conds[1..] :: c in conds;
      NoPools(conds[1..]);
    }
  }

  lemma {:induction false} PoolLookup(conds: seq<Condition>)
    ensures Lookup(conds, NodePoolReady) == if PoolsOnly(conds) == [] then None else Some(PoolsOnly(conds)[0])
  {
    if conds != [] {
      PoolLookup(conds[1..]);
    }
  }

  lemma {:induction false} PoolLast(conds: seq<Condition>)
    ensures LastOf(conds, NodePoolReady)
         == var ps := PoolsOnly(conds); if ps == [] then None else Some(ps[|ps| - 1])
  {
    if conds != [] {
      var n := |conds| - 1;
      assert conds == conds[..n] + [conds[n]];
      PoolsOnlyAppend(conds[..n], [conds[n]]);
      PoolLast(conds[..n]);
    }
  }

  /** Upserting a pool condition into a list with at most one of them leaves exactly that one. */
  lemma {:induction false} UpsertPool(conds: seq<Condition>, c: Condition)
    requires c.ctype == NodePoolReady && |PoolsOnly(conds)| <= 1
    ensures PoolsOnly(Upsert(conds, c)) == [c]
    ensures WithoutPools(Upsert(conds, c)) == WithoutPools(conds)
  {
    if conds != [] && conds[0].ctype != c.ctype {
      UpsertPool(conds[1..], c);
    }
  }

  lemma RunningPoolStep(pools: seq<Condition>, c: Condition)
    ensures RunningPool(pools + [c])
         == if pools == [] || c.status != TRUE then Some(c) else RunningPool(pools)
  {
    var all := pools + [c];
    assert all[..|pools|] == pools;
    if pools != [] && c.status == TRUE {
      assert AllTrue(all) <==> AllTrue(pools);
    }
  }

  // ---- what comes out, from the entries ------------------------------------------------------------

  /** `c` is what the last pool that is not ready reports. */
  ghost predicate FailsLast(entries: seq<ManifestStatus>, ids: set<ResourceId>, c: Condition) {
    && c.status != "True"
    && exists i | 0 <= i < |entries| ::
         PoolReports(entries[i], ids, c)
         && forall k, d | i < k < |entries| && PoolReports(entries[k], ids, d) :: d.status == "True"
  }

  /** `c` sums up the pools: provisioned, if some report and all are ready, else what the last failing one reports. */
  ghost predicate SumsUp(entries: seq<ManifestStatus>, ids: set<ResourceId>, c: Condition) {
    || FailsLast(entries, ids, c)
    || (&& c == Condition(NodePoolReady, "True", 0, "NodePoolsProvisioned", "")
        && (exists d :: SomePoolReports(entries, ids, d))
        && (forall d :: SomePoolReports(entries, ids, d) ==> d.status == "True"))
  }

  lemma FailsLastSnoc(entries: seq<ManifestStatus>, e: ManifestStatus, ids: set<ResourceId>, c: Condition)
    ensures FailsLast(entries + [e], ids, c)
       <==> || (c.status != "True" && PoolReports(e, ids, c))
            || (FailsLast(entries, ids, c) && forall d | PoolReports(e, ids, d) :: d.status == "True")
  {
    var all, n := entries + [e], |entries|;
    assert all[n] == e;
    assert forall i | 0 <= i < n :: all[i] == entries[i];
    if FailsLast(all, ids, c) && !(c.status != "True" && PoolReports(e, ids, c)) {
      var i :| 0 <= i < |all| && PoolReports(all[i], ids, c)
               && forall k, d | i < k < |all| && PoolReports(all[k], ids, d) :: d.status == "True";
      assert i < n && PoolReports(entries[i], ids, c);
    }
  }

  lemma LastFailingSnoc(pools: seq<Condition>, c: Condition)
    ensures AllTrue(pools + [c]) <==> AllTrue(pools) && c.status == TRUE
    ensures !AllTrue(pools + [c]) ==>
              LastFailing(pools + [c]) == if c.status != TRUE then c else LastFailing(pools)
  {
    assert (pools + [c])[..|pools|] == pools;
  }

  lemma PoolsOfIsList(e: ManifestStatus, ids: set<ResourceId>)
    ensures PoolsOf(e, ids) == [] ==> forall d :: !PoolReports(e, ids, d)
    ensures PoolsOf(e, ids) != [] ==> PoolsOf(e, ids) == [PoolsOf(e, ids)[0]]
    ensures PoolsOf(e, ids) != [] ==> forall d :: PoolReports(e, ids, d) <==> d == PoolsOf(e, ids)[0]
  {
    forall d ensures PoolReports(e, ids, d) <==> d in PoolsOf(e, ids) {
      PoolsOfIff(e, ids, d);
    }
  }

  lemma {:induction false} LastFailingIff(entries: seq<ManifestStatus>, ids: set<ResourceId>, c: Condition)
    ensures !AllTrue(MatchedPools(entries, ids)) && LastFailing(MatchedPools(entries, ids)) == c
       <==> FailsLast(entries, ids, c)
  {
    if entries != [] {
      var before, last := entries[..|entries| - 1], entries[|entries| - 1];
      var pools := MatchedPools(before, ids);
      assert entries == before + [last];
      LastFailingIff(before, ids, c);
      FailsLastSnoc(before, last, ids, c);
      PoolsOfIsList(last, ids);
      if PoolsOf(last, ids) == [] {
        assert pools + [] == pools;
      } else {
        LastFailingSnoc(pools, PoolsOf(last, ids)[0]);
      }
    }
  }

  lemma SumsUpIff(entries: seq<ManifestStatus>, ids: set<ResourceId>, c: Condition)
    ensures PoolSummary(MatchedPools(entries, ids)) == Some(c) <==> SumsUp(entries, ids, c)
  {
    var pools := MatchedPools(entries, ids);
    forall d ensures d in pools <==> SomePoolReports(entries, ids, d) {
      MatchedIff(entries, ids, d);
    }
    LastFailingIff(entries, ids, c);
    if pools != [] {
      assert pools[0] in pools;
    }
    if !AllTrue(pools) {
      var d := LastFailing(pools);
      assert SomePoolReports(entries, ids, d);
    }
  }

  lemma {:induction false} PartsHoldAll(conds: seq<Condition>, c: Condition)
    ensures c in PoolsOnly(conds) <==> c in conds && c.ctype == NodePoolReady
    ensures c in WithoutPools(conds) <==> c in conds && c.ctype != NodePoolReady
  {
    if conds != [] {
      PartsHoldAll(conds[1..], c);
      assert conds == [conds[0]] + conds[1..];
    }
  }

  /** What a list of the right parts holds. */
  lemma ResultIs(entries: seq<ManifestStatus>, ids: set<ResourceId>, out: seq<Condition>, c: Condition)
    requires PoolsOnly(out) == AsList(PoolSummary(MatchedPools(entries, ids)))
    requires WithoutPools(out) == MatchedClusters(entries, ids)
    ensures c in out <==> if c.ctype == NodePoolReady then SumsUp(entries, ids, c) else SomeClusterReports(entries, ids, c)
  {
    PartsHoldAll(out, c);
    MatchedIff(entries, ids, c);
    SumsUpIff(entries, ids, c);
    if SumsUp(entries, ids, c) {
      assert c.ctype == NodePoolReady;
    }
  }

  /** condmeta.SetStatusCondition on a local list. */
  method SetLocal(conds: seq<Condition>, c: Condition) returns (r: seq<Condition>)
    ensures r == Upsert(conds, c)
  {
    var i := 0;
    while i < |conds| && conds[i].ctype != c.ctype
      invariant 0 <= i <= |conds|
      invariant forall k | 0 <= k < i :: conds[k].ctype != c.ctype
    {
      i := i + 1;
    }
    UpsertAt(conds, c, i);
    r := if i == |conds| then conds + [c] else conds[i := c];
  }

  /** The hosted-cluster branch of the loop: up to two conditions are appended as they are. */
  method AppendClusterConditions(conds: seq<Condition>, values: seq<FeedbackValue>) returns (out: seq<Condition>)
    ensures PoolsOnly(out) == PoolsOnly(conds)
    ensures WithoutPools(out)
         == WithoutPools(conds) + AsList(FeedbackCondition(HostedClusterAvailable, values))
            + AsList(FeedbackCondition(HostedClusterProgress, values))
  {
    out := conds;
    var available := FeedbackToCondition(HostedClusterAvailable, values);
    if available != None {
      out := out + [available.value];
    }
    var progress := FeedbackToCondition(HostedClusterProgress, values);
    if progress != None {
      out := out + [progress.value];
    }
    ghost var added := AsList(available) + AsList(progress);
    assert out == conds + added;
    NoPools(added);
    PoolsOnlyAppend(conds, added);
    WithoutPoolsAppend(conds, added);
  }

  /** The node-pool branch of the loop: the first pool is kept until a failing one replaces it. */
  method MergePoolCondition(conds: seq<Condition>, values: seq<FeedbackValue>, ghost pools: seq<Condition>)
    returns (out: seq<Condition>)
    requires PoolsOnly(conds) == AsList(RunningPool(pools))
    ensures PoolsOnly(out) == AsList(RunningPool(pools + AsList(FeedbackCondition(NodePoolReady, values))))
    ensures WithoutPools(out) == WithoutPools(conds)
  {
    out := conds;
    var npCond := FeedbackToCondition(NodePoolReady, values);
    if npCond == None {
      assert pools + AsList(npCond) == pools;
      return;
    }
    RunningPoolStep(pools, npCond.value);
    UpsertPool(conds, npCond.value);
    PoolLookup(conds);
    var st := Lookup(conds, NodePoolReady);
    if st == None {
      out := SetLocal(conds, npCond.value);
    } else if npCond.value.status != TRUE {
      out := SetLocal(conds, npCond.value);
    }
  }

  /** The closing step: a surviving True condition is rewritten as "all provisioned". */
  method SummarizePools(conds: seq<Condition>, ghost pools: seq<Condition>) returns (out: seq<Condition>)
    requires PoolsOnly(conds) == AsList(RunningPool(pools))
    ensures PoolsOnly(out) == AsList(PoolSummary(pools))
    ensures WithoutPools(out) == WithoutPools(conds)
  {
    out := conds;
    PoolLookup(conds);
    var st := Lookup(conds, NodePoolReady);
    if st != None && st.value.status == TRUE {
      UpsertPool(conds, PROVISIONED);
      out := SetLocal(conds, PROVISIONED);
    }
  }

  /** The loop body. */
  method MergeEntry(conds: seq<Condition>, obj: ManifestStatus, ids: set<ResourceId>, ghost pools: seq<Condition>)
    returns (out: seq<Condition>)
    requires PoolsOnly(conds) == AsList(RunningPool(pools))
    ensures PoolsOnly(out) == AsList(RunningPool(pools + PoolsOf(obj, ids)))
    ensures WithoutPools(out) == WithoutPools(conds) + ClustersOf(obj, ids)
  {
    out := conds;
    assert pools + [] == pools;
    if obj.id !in ids {
      return;
    }
    if obj.id.resource == NodePools {
      out := MergePoolCondition(out, obj.values, pools);
    }
    if obj.id.resource == HostedClusters {
      out := AppendClusterConditions(out, obj.values);
    }
  }

  /** getStatusFeedbackAsCondition: one loop over the work's resource status. */
  method GetStatusFeedbackAsCondition(entries: seq<ManifestStatus>, ids: set<ResourceId>) returns (out: seq<Condition>)
    ensures PoolsOnly(out) == AsList(PoolSummary(MatchedPools(entries, ids)))
    ensures WithoutPools(out) == MatchedClusters(entries, ids)
    ensures forall c :: c in out <==>
              if c.ctype == NodePoolReady then SumsUp(entries, ids, c) else SomeClusterReports(entries, ids, c)
  {
    out := [];
    for i := 0 to |entries|
      invariant PoolsOnly(out) == AsList(RunningPool(MatchedPools(entries[..i], ids)))
      invariant WithoutPools(out) == MatchedClusters(entries[..i], ids)
    {
      assert entries[..i + 1][..i] == entries[..i];
      out := MergeEntry(out, entries[i], ids, MatchedPools(entries[..i], ids));
    }
    assert entries[..|entries|] == entries;
    out := SummarizePools(out, MatchedPools(entries, ids));
    forall c ensures c in out <==>
                       if c.ctype == NodePoolReady then SumsUp(entries, ids, c) else SomeClusterReports(entries, ids, c) {
      ResultIs(entries, ids, out, c);
    }
  }

  // ---- what the summary means --------------------------------------------------------------------

  /** The summary is True exactly when there are pools and all of them are True. */
  lemma SummaryTrueIffAllTrue(pools: seq<Condition>)
    ensures PoolSummary(pools).Some? && PoolSummary(pools).value.status == TRUE <==> pools != [] && AllTrue(pools)
    ensures PoolSummary(pools).None? <==> pools == []
  {
  }

  /** Reordering the feedback never turns a True summary into a failing one, or the reverse. */
  lemma SummaryTruthIgnoresOrder(a: seq<Condition>, b: seq<Condition>)
    requires multiset(a) == multiset(b)
    ensures PoolSummary(a).None? <==> PoolSummary(b).None?
    ensures PoolSummary(a) == Some(PROVISIONED) <==> PoolSummary(b) == Some(PROVISIONED)
  {
    assert |multiset(a)| == |a| && |multiset(b)| == |b|;
    forall c ensures c in a <==> c in b {
      assert c in a <==> c in multiset(a);
      assert c in b <==> c in multiset(b);
    }
    if a != [] && !AllTrue(a) {
      assert LastFailing(a) in b;
    }
    if b != [] && !AllTrue(b) {
      assert LastFailing(b) in a;
    }
  }

  lemma MatchedSnoc(entries: seq<ManifestStatus>, e: ManifestStatus, ids: set<ResourceId>)
    ensures MatchedPools(entries + [e], ids) == MatchedPools(entries, ids) + PoolsOf(e, ids)
  {
    assert (entries + [e])[..|entries|] == entries;
  }

  lemma {:induction false} MatchedAppend(a: seq<ManifestStatus>, b: seq<ManifestStatus>, ids: set<ResourceId>)
    ensures MatchedPools(a + b, ids) == MatchedPools(a, ids) + MatchedPools(b, ids)
  {
    if b == [] {
      assert a + b == a;
    } else {
      var before, last := b[..|b| - 1], b[|b| - 1];
      assert b == before + [last] && a + b == a + before + [last];
      MatchedAppend(a, before, ids);
      MatchedSnoc(before, last, ids);
      MatchedSnoc(a + before, last, ids);
      Regroup(MatchedPools(a, ids), MatchedPools(before, ids), PoolsOf(last, ids));
    }
  }

  lemma MatchedAround(a: seq<ManifestStatus>, e: ManifestStatus, b: seq<ManifestStatus>, ids: set<ResourceId>)
    ensures multiset(MatchedPools(a + [e] + b, ids))
         == multiset(MatchedPools(a + b, ids)) + multiset(PoolsOf(e, ids))
  {
    MatchedAppend(a + [e], b, ids);
    MatchedAppend(a, b, ids);
    MatchedSnoc(a, e, ids);
  }

  lemma {:induction false} MatchedIgnoresOrder(a: seq<ManifestStatus>, b: seq<ManifestStatus>, ids: set<ResourceId>)
    requires multiset(a) == multiset(b)
    ensures multiset(MatchedPools(a, ids)) == multiset(MatchedPools(b, ids))
    decreases |a|
  {
    if a == [] {
      assert |multiset(b)| == 0;
    } else {
      var before, last := a[..|a| - 1], a[|a| - 1];
      assert a == before + [last];
      var front, back := SplitAt(b, last);
      SameWithout(before, last, front, back);
      MatchedIgnoresOrder(before, front + back, ids);
      MatchedAround(before, last, [], ids);
      MatchedAround(front, last, back, ids);
      assert before + [last] + [] == a && before + [] == before;
    }
  }

  /** The parts of a list before and after an occurrence of an element. */
  lemma SplitAt(b: seq<ManifestStatus>, e: ManifestStatus) returns (front: seq<ManifestStatus>, back: seq<ManifestStatus>)
    requires e in multiset(b)
    ensures b == front + [e] + back
  {
    var i :| 0 <= i < |b| && b[i] == e;
    front, back := b[..i], b[i + 1..];
  }

  lemma SameWithout(a: seq<ManifestStatus>, e: ManifestStatus, front: seq<ManifestStatus>, back: seq<ManifestStatus>)
    requires multiset(a + [e]) == multiset(front + [e] + back)
    ensures multiset(a) == multiset(front + back)
  {
    assert multiset(a) == multiset(a + [e]) - multiset{e};
    assert multiset(front + back) == multiset(front + [e] + back) - multiset{e};
  }

  /** Whether the deployment says that all pools are provisioned does not depend on the order of the feedback. */
  lemma FeedbackOrderIsIrrelevant(a: seq<ManifestStatus>, b: seq<ManifestStatus>, ids: set<ResourceId>)
    requires multiset(a) == multiset(b)
    ensures var x, y := PoolSummary(MatchedPools(a, ids)), PoolSummary(MatchedPools(b, ids));
            (x.None? <==> y.None?) && (x == Some(PROVISIONED) <==> y == Some(PROVISIONED))
  {
    MatchedIgnoresOrder(a, b, ids);
    SummaryTruthIgnoresOrder(MatchedPools(a, ids), MatchedPools(b, ids));
  }

  /** Once the feedback is synced, the deployment's node-pool condition is the summary, whatever stood there before. */
  lemma SummaryReachesDeployment(
    conds: seq<Condition>, workConds: seq<Condition>, out: seq<Condition>, pools: seq<Condition>, generation: int)
    requires PoolsOnly(out) == AsList(PoolSummary(pools)) && pools != []
    ensures Lookup(UpsertAll(conds, StampAll(workConds + out, generation)), NodePoolReady)
         == Some(Stamped(PoolSummary(pools).value, generation))
  {
    PoolLast(out);
    LastOfAppend(workConds, out, NodePoolReady);
    LastOfStamped(workConds + out, generation, NodePoolReady);
    LastIncomingWins(conds, StampAll(workConds + out, generation), NodePoolReady);
  }

  lemma {:induction false} LastOfStamped(conds: seq<Condition>, generation: int, ctype: ConditionType)
    ensures LastOf(StampAll(conds, generation), ctype)
         == if LastOf(conds, ctype).Some? then Some(Stamped(LastOf(conds, ctype).value, generation)) else None
  {
    if conds != [] {
      var n := |conds| - 1;
      assert StampAll(conds, generation)[..n] == StampAll(conds[..n], generation);
      LastOfStamped(conds[..n], generation, ctype);
    }
  }

  lemma {:induction false} LastOfAppend(a: seq<Condition>, b: seq<Condition>, ctype: ConditionType)
    ensures LastOf(a + b, ctype) == if LastOf(b, ctype).Some? then LastOf(b, ctype) else LastOf(a, ctype)
  {
    if b == [] {
      assert a + b == a;
    } else {
      var n := |b| - 1;
      assert (a + b)[..|a| + n] == a + b[..n];
      LastOfAppend(a, b[..n], ctype);
    }
  }

  lemma {:induction false} LastOfOthers(conds: seq<Condition>, ctype: ConditionType)
    requires ctype != NodePoolReady
    ensures LastOf(conds, ctype) == LastOf(WithoutPools(conds), ctype)
  {
    if conds != [] {
      var n := |conds| - 1;
      assert conds == conds[..n] + [conds[n]];
      WithoutPoolsAppend(conds[..n], [conds[n]]);
      LastOfAppend(WithoutPools(conds[..n]), WithoutPools([conds[n]]), ctype);
      assert WithoutPools([conds[n]]) == if conds[n].ctype == NodePoolReady then [] else [conds[n]];
      LastOfOthers(conds[..n], ctype);
    }
  }

  lemma LastOfOne(ctype: ConditionType, values: seq<FeedbackValue>, other: ConditionType)
    ensures LastOf(AsList(FeedbackCondition(ctype, values)), other)
         == if other == ctype then FeedbackCondition(ctype, values) else None
  {
    var conds := AsList(FeedbackCondition(ctype, values));
    if conds != [] {
      assert conds[..0] == [];
    }
  }

  lemma LastOfClusters(e: ManifestStatus, ids: set<ResourceId>, ctype: ConditionType)
    ensures LastOf(ClustersOf(e, ids), ctype)
         == if e.id in ids && e.id.resource == HostedClusters && ctype in {HostedClusterAvailable, HostedClusterProgress}
            then FeedbackCondition(ctype, e.values) else None
  {
    LastOfOne(HostedClusterAvailable, e.values, ctype);
    LastOfOne(HostedClusterProgress, e.values, ctype);
    LastOfAppend(AsList(FeedbackCondition(HostedClusterAvailable, e.values)),
                 AsList(FeedbackCondition(HostedClusterProgress, e.values)), ctype);
  }

  lemma LastOfEntry(e: ManifestStatus, ids: set<ResourceId>, c: Condition)
    ensures LastOf(ClustersOf(e, ids), c.ctype) == Some(c) <==> ClusterReports(e, ids, c)
    ensures LastOf(ClustersOf(e, ids), c.ctype).Some? ==> ClusterReports(e, ids, LastOf(ClustersOf(e, ids), c.ctype).value)
  {
    var last := FeedbackCondition(c.ctype, e.values);
    LastOfClusters(e, ids, c.ctype);
    FeedbackConditionIff(e.values, c);
    if last.Some? {
      FeedbackConditionIff(e.values, last.value);
    }
  }

  /** Entry `i` reports `c`, and no later one reports anything of its type. */
  ghost predicate ReportsLast(entries: seq<ManifestStatus>, ids: set<ResourceId>, c: Condition, i: nat) {
    && i < |entries| && ClusterReports(entries[i], ids, c)
    && forall k, d | i < k < |entries| && ClusterReports(entries[k], ids, d) :: d.ctype != c.ctype
  }

  lemma ReportsLastBefore(entries: seq<ManifestStatus>, ids: set<ResourceId>, c: Condition, i: nat)
    requires ReportsLast(entries, ids, c, i) && i < |entries| - 1
    ensures ReportsLast(entries[..|entries| - 1], ids, c, i)
    ensures LastOf(ClustersOf(entries[|entries| - 1], ids), c.ctype) == None
  {
    var n := |entries| - 1;
    LastOfEntry(entries[n], ids, c);
    assert entries[..n][i] == entries[i];
    forall k, d | i < k < n && ClusterReports(entries[..n][k], ids, d) ensures d.ctype != c.ctype {
      assert entries[..n][k] == entries[k];
    }
    var last := LastOf(ClustersOf(entries[n], ids), c.ctype);
    if last.Some? {
      LastOfHasType(ClustersOf(entries[n], ids), c.ctype);
    }
  }

  lemma {:induction false} LastOfHasType(conds: seq<Condition>, ctype: ConditionType)
    requires LastOf(conds, ctype).Some?
    ensures LastOf(conds, ctype).value.ctype == ctype
  {
    var n := |conds| - 1;
    if conds[n].ctype != ctype {
      LastOfHasType(conds[..n], ctype);
    }
  }

  lemma {:induction false} LastReport(entries: seq<ManifestStatus>, ids: set<ResourceId>, c: Condition, i: nat)
    requires ReportsLast(entries, ids, c, i)
    ensures LastOf(MatchedClusters(entries, ids), c.ctype) == Some(c)
  {
    var before, last := entries[..|entries| - 1], entries[|entries| - 1];
    LastOfAppend(MatchedClusters(before, ids), ClustersOf(last, ids), c.ctype);
    LastOfEntry(last, ids, c);
    if i < |before| {
      ReportsLastBefore(entries, ids, c, i);
      LastReport(before, ids, c, i);
    }
  }

  /** Once the feedback is synced, the deployment has the last report of each type, whatever stood there before. */
  lemma ReportReachesDeployment(
    conds: seq<Condition>, workConds: seq<Condition>, out: seq<Condition>, generation: int,
    entries: seq<ManifestStatus>, ids: set<ResourceId>, c: Condition, i: nat)
    requires WithoutPools(out) == MatchedClusters(entries, ids) && ReportsLast(entries, ids, c, i)
    ensures Lookup(UpsertAll(conds, StampAll(workConds + out, generation)), c.ctype)
         == Some(c.(observedGeneration := generation))
  {
    LastReport(entries, ids, c, i);
    LastOfOthers(out, c.ctype);
    LastOfAppend(workConds, out, c.ctype);
    LastOfStamped(workConds + out, generation, c.ctype);
    LastIncomingWins(conds, StampAll(workConds + out, generation), c.ctype);
  }

  lemma {:induction false} NoLastOf(conds: seq<Condition>, ctype: ConditionType)
    requires forall c | c in conds :: c.ctype != ctype
    ensures LastOf(conds, ctype) == None
  {
    if conds != [] {
      NoLastOf(conds[..|conds| - 1], ctype);
    }
  }

  /** Neither a condition of the work nor a report in its feedback has this type. */
  ghost predicate Unmentioned(
    workConds: seq<Condition>, entries: seq<ManifestStatus>, ids: set<ResourceId>, ctype: ConditionType)
  {
    && (forall c | c in workConds :: c.ctype != ctype)
    && (forall c: Condition, i | 0 <= i < |entries| && c.ctype == ctype ::
          !ClusterReports(entries[i], ids, c) && !PoolReports(entries[i], ids, c))
  }

  /** A type that neither the work nor its feedback mentions keeps its condition. */
  lemma UnreportedStays(
    conds: seq<Condition>, workConds: seq<Condition>, out: seq<Condition>, generation: int,
    entries: seq<ManifestStatus>, ids: set<ResourceId>, ctype: ConditionType)
    requires forall c :: c in out <==>
               if c.ctype == NodePoolReady then SumsUp(entries, ids, c) else SomeClusterReports(entries, ids, c)
    requires Unmentioned(workConds, entries, ids, ctype)
    ensures Lookup(UpsertAll(conds, StampAll(workConds + out, generation)), ctype) == Lookup(conds, ctype)
  {
    forall c | c in workConds + out ensures c.ctype != ctype {
    }
    NoLastOf(workConds + out, ctype);
    LastOfStamped(workConds + out, generation, ctype);
    LastIncomingWins(conds, StampAll(workConds + out, generation), ctype);
  }

  lemma SyncedReports(
    conds: seq<Condition>, workConds: seq<Condition>, out: seq<Condition>, generation: int,
    entries: seq<ManifestStatus>, ids: set<ResourceId>)
    requires WithoutPools(out) == MatchedClusters(entries, ids)
    ensures var after := UpsertAll(conds, StampAll(workConds + out, generation));
            forall c, i: nat | ReportsLast(entries, ids, c, i) ::
              Lookup(after, c.ctype) == Some(c.(observedGeneration := generation))
  {
    var after := UpsertAll(conds, StampAll(workConds + out, generation));
    forall c, i: nat | ReportsLast(entries, ids, c, i)
      ensures Lookup(after, c.ctype) == Some(c.(observedGeneration := generation)) {
      ReportReachesDeployment(conds, workConds, out, generation, entries, ids, c, i);
    }
  }

  lemma SyncedPools(
    conds: seq<Condition>, workConds: seq<Condition>, out: seq<Condition>, generation: int,
    entries: seq<ManifestStatus>, ids: set<ResourceId>)
    requires PoolsOnly(out) == AsList(PoolSummary(MatchedPools(entries, ids)))
    ensures var after := UpsertAll(conds, StampAll(workConds + out, generation));
            forall c | SumsUp(entries, ids, c) :: Lookup(after, NodePoolReady) == Some(c.(observedGeneration := generation))
  {
    var after := UpsertAll(conds, StampAll(workConds + out, generation));
    forall c | SumsUp(entries, ids, c) ensures Lookup(after, NodePoolReady) == Some(c.(observedGeneration := generation)) {
      SumsUpIff(entries, ids, c);
      SummaryReachesDeployment(conds, workConds, out, MatchedPools(entries, ids), generation);
    }
  }

  lemma SyncedOthers(
    conds: seq<Condition>, workConds: seq<Condition>, out: seq<Condition>, generation: int,
    entries: seq<ManifestStatus>, ids: set<ResourceId>)
    requires forall c :: c in out <==>
               if c.ctype == NodePoolReady then SumsUp(entries, ids, c) else SomeClusterReports(entries, ids, c)
    ensures var after := UpsertAll(conds, StampAll(workConds + out, generation));
            forall ctype | Unmentioned(workConds, entries, ids, ctype) :: Lookup(after, ctype) == Lookup(conds, ctype)
  {
    var after := UpsertAll(conds, StampAll(workConds + out, generation));
    forall ctype | Unmentioned(workConds, entries, ids, ctype) ensures Lookup(after, ctype) == Lookup(conds, ctype) {
      UnreportedStays(conds, workConds, out, generation, entries, ids, ctype);
    }
  }

  /** Condition `i` of the work is its last of a type that feedback is never about. */
  predicate LastOfWork(workConds: seq<Condition>, i: nat) {
    && i < |workConds|
    && workConds[i].ctype !in {NodePoolReady, HostedClusterAvailable, HostedClusterProgress}
    && forall k | i < k < |workConds| :: workConds[k].ctype != workConds[i].ctype
  }

  lemma {:induction false} LastOfIsLast(conds: seq<Condition>, i: nat)
    requires i < |conds| && forall k | i < k < |conds| :: conds[k].ctype != conds[i].ctype
    ensures LastOf(conds, conds[i].ctype) == Some(conds[i])
  {
    if i < |conds| - 1 {
      LastOfIsLast(conds[..|conds| - 1], i);
    }
  }

  lemma WorkReachesDeployment(
    conds: seq<Condition>, workConds: seq<Condition>, out: seq<Condition>, generation: int, i: nat)
    requires LastOfWork(workConds, i)
    requires forall c | c in out :: c.ctype != workConds[i].ctype
    ensures Lookup(UpsertAll(conds, StampAll(workConds + out, generation)), workConds[i].ctype)
         == Some(workConds[i].(observedGeneration := generation))
  {
    var ctype := workConds[i].ctype;
    NoLastOf(out, ctype);
    LastOfIsLast(workConds, i);
    LastOfAppend(workConds, out, ctype);
    LastOfStamped(workConds + out, generation, ctype);
    LastIncomingWins(conds, StampAll(workConds + out, generation), ctype);
  }

  lemma SyncedWork(
    conds: seq<Condition>, workConds: seq<Condition>, out: seq<Condition>, generation: int,
    entries: seq<ManifestStatus>, ids: set<ResourceId>)
    requires forall c :: c in out <==>
               if c.ctype == NodePoolReady then SumsUp(entries, ids, c) else SomeClusterReports(entries, ids, c)
    ensures var after := UpsertAll(conds, StampAll(workConds + out, generation));
            forall i: nat | LastOfWork(workConds, i) ::
              Lookup(after, workConds[i].ctype) == Some(workConds[i].(observedGeneration := generation))
  {
    var after := UpsertAll(conds, StampAll(workConds + out, generation));
    forall i: nat | LastOfWork(workConds, i)
      ensures Lookup(after, workConds[i].ctype) == Some(workConds[i].(observedGeneration := generation)) {
      WorkReachesDeployment(conds, workConds, out, generation, i);
    }
  }

  // ---- syncManifestworkStatusToHypershiftDeployment --------------------------------------------------

  const HYPERSHIFT_GROUP := "hypershift.openshift.io"

  /** The deployment's hosted cluster and its own node pools, in the hosting namespace. */
  predicate Asked(hyd: Deployment, id: ResourceId)
    reads hyd`hostingNamespace, hyd`nodePools
  {
    || id == ResourceId("hypershift.openshift.io", HostedClusters, hyd.name, hyd.hostingNamespace)
    || exists k | 0 <= k < |hyd.nodePools| ::
         id == ResourceId("hypershift.openshift.io", NodePools, hyd.nodePools[k].name, hyd.hostingNamespace)
  }

  /** getManifestWorkConfigs: the resources the work is asked to report on. */
  method ManifestWorkIds(hyd: Deployment) returns (ids: set<ResourceId>)
    ensures forall id :: id in ids <==> Asked(hyd, id)
  {
    ids := {ResourceId(HYPERSHIFT_GROUP, HostedClusters, hyd.name, hyd.hostingNamespace)};
    for i := 0 to |hyd.nodePools|
      invariant forall id :: id in ids <==>
                  || id == ResourceId(HYPERSHIFT_GROUP, HostedClusters, hyd.name, hyd.hostingNamespace)
                  || exists k | 0 <= k < i ::
                       id == ResourceId(HYPERSHIFT_GROUP, NodePools, hyd.nodePools[k].name, hyd.hostingNamespace)
    {
      ids := ids + {ResourceId(HYPERSHIFT_GROUP, NodePools, hyd.nodePools[i].name, hyd.hostingNamespace)};
    }
  }

  /** The work's conditions and its feedback, copied into the deployment's status. */
  method SyncManifestworkStatus(hyd: Deployment, workConds: seq<Condition>, entries: seq<ManifestStatus>)
    returns (ghost ids: set<ResourceId>)
    modifies hyd`conditions
    ensures forall id :: id in ids <==> Asked(hyd, id)
    ensures forall c, i: nat | ReportsLast(entries, ids, c, i) ::
              Lookup(hyd.conditions, c.ctype) == Some(c.(observedGeneration := hyd.generation))
    ensures forall c | SumsUp(entries, ids, c) ::
              Lookup(hyd.conditions, NodePoolReady) == Some(c.(observedGeneration := hyd.generation))
    ensures forall i: nat | LastOfWork(workConds, i) ::
              Lookup(hyd.conditions, workConds[i].ctype) == Some(workConds[i].(observedGeneration := hyd.generation))
    ensures forall ctype | Unmentioned(workConds, entries, ids, ctype) ::
              Lookup(hyd.conditions, ctype) == Lookup(old(hyd.conditions), ctype)
  {
    var asked := ManifestWorkIds(hyd);
    ids := asked;
    var feedback := GetStatusFeedbackAsCondition(entries, asked);
    SyncWorkStatus(hyd, workConds, feedback);
    SyncedReports(old(hyd.conditions), workConds, feedback, hyd.generation, entries, asked);
    SyncedPools(old(hyd.conditions), workConds, feedback, hyd.generation, entries, asked);
    SyncedWork(old(hyd.conditions), workConds, feedback, hyd.generation, entries, asked);
    SyncedOthers(old(hyd.conditions), workConds, feedback, hyd.generation, entries, asked);
  }
}
