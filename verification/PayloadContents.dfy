/**
 What a payload holds, manifest by manifest, in terms of what the reconcile reads: when the loaders succeed,
 the namespace, cluster and pools in front, the secrets that go with the cluster, and behind them one
 object for each reference, taken from the user, from the stored work, or fresh.
 */
module PayloadContents {
  import opened Wrappers
  import opened Api
  import opened Payload

  /** `hc` is the hosted cluster spec to deploy: the referenced one, or the deployment's own. */
  predicate Deploys(inp: Inputs, hc: HostedClusterSpec) {
    if !inp.configure && inp.clusterRef != "" then inp.referencedCluster == Some(hc) else hc == inp.ownCluster
  }

  /** `pools` are the node pools to deploy, likewise. */
  predicate DeploysPools(inp: Inputs, pools: seq<NodePool>) {
    if !inp.configure && inp.poolRefs != [] then
      && |pools| == |inp.poolRefs|
      && forall i | 0 <= i < |pools| ::
           inp.poolRefs[i] in inp.referencedPools && pools[i] == inp.referencedPools[inp.poolRefs[i]]
    else pools == inp.ownPools
  }

  /** The cluster is on Azure, and the provider secret holds no usable credentials. */
  predicate BadAzure(inp: Inputs, hc: HostedClusterSpec) {
    hc.aws.None? && hc.azureCredentials.Some? && inp.provider.azureCredentials.None?
  }

  /** The secrets the cluster names, if it comes from a reference including the AWS credentials. */
  predicate Refers(inp: Inputs, hc: HostedClusterSpec, name: string) {
    NamesSecret(!inp.configure && inp.clusterRef != "", hc, name)
  }

  predicate IsStored(stored: seq<Manifest>, name: string) {
    exists i | 0 <= i < |stored| :: stored[i].Secret? && stored[i].name == name
  }

  // ---- what is chosen ----------------------------------------------------------------------------

  lemma ChosenIs(inp: Inputs, hc: HostedClusterSpec)
    ensures Deploys(inp, hc) <==> ChosenCluster(inp) == Some(hc)
  {
  }

  lemma ChosenPoolsAre(inp: Inputs, pools: seq<NodePool>)
    ensures DeploysPools(inp, pools) <==> PoolsReadable(inp) && pools == ChosenPools(inp)
  {
    if DeploysPools(inp, pools) && UsesPoolRefs(inp) {
      forall r | r in inp.poolRefs ensures r in inp.referencedPools {
        var i :| 0 <= i < |inp.poolRefs| && inp.poolRefs[i] == r;
        assert pools[i] == inp.referencedPools[inp.poolRefs[i]];
      }
      assert pools == ChosenPools(inp);
    }
  }

  lemma {:induction false} FoundIsFirst(payload: seq<Manifest>, name: string, i: nat)
    requires i < |payload| && payload[i].Secret? && payload[i].name == name
    requires forall k | 0 <= k < i :: !(payload[k].Secret? && payload[k].name == name)
    ensures FindSecret(payload, name) == Some(payload[i])
  {
    if i > 0 {
      FoundIsFirst(payload[1..], name, i - 1);
    }
  }

  lemma {:induction false} FoundIff(payload: seq<Manifest>, name: string)
    ensures FindSecret(payload, name).Some? <==> IsStored(payload, name)
  {
    if payload != [] {
      FoundIff(payload[1..], name);
      if IsStored(payload[1..], name) {
        var i :| 0 <= i < |payload[1..]| && payload[1..][i].Secret? && payload[1..][i].name == name;
        assert payload[i + 1].Secret? && payload[i + 1].name == name;
      }
      if IsStored(payload, name) && !(payload[0].Secret? && payload[0].name == name) {
        var i :| 0 <= i < |payload| && payload[i].Secret? && payload[i].name == name;
        assert payload[1..][i - 1] == payload[i];
      }
    }
  }

  // ---- when the loaders succeed --------------------------------------------------------------------

  lemma ResolvesIff(inp: Inputs, stored: seq<Manifest>, ref: SecretRef)
    ensures ResolveSecret(inp, stored, ref).Some?
       <==> ref.name in inp.secrets || IsStored(stored, ref.name) || (inp.configure && ref.generable)
  {
    FoundIff(stored, ref.name);
  }

  lemma AllResolveIff(inp: Inputs, stored: seq<Manifest>, byReference: bool, hc: HostedClusterSpec)
    ensures AllResolve(inp, stored, SecretRefs(byReference, hc))
       <==> forall name :: NamesSecret(byReference, hc, name) ==>
              || name in inp.secrets || IsStored(stored, name)
              || (inp.configure && !NamesGivenSecret(byReference, hc, name))
  {
    forall ref ensures ResolveSecret(inp, stored, ref).Some?
                  <==> ref.name in inp.secrets || IsStored(stored, ref.name) || (inp.configure && ref.generable) {
      ResolvesIff(inp, stored, ref);
    }
    forall ref ensures ref in SecretRefs(byReference, hc)
                  <==> if ref.generable then IsActiveKey(hc, ref.name) else NamesGivenSecret(byReference, hc, ref.name) {
      SecretRefsIff(byReference, hc, ref);
    }
    if AllResolve(inp, stored, SecretRefs(byReference, hc)) {
      forall name | NamesSecret(byReference, hc, name)
        ensures || name in inp.secrets || IsStored(stored, name)
                || (inp.configure && !NamesGivenSecret(byReference, hc, name)) {
        var ref := SecretRef(name, !NamesGivenSecret(byReference, hc, name));
        assert ref in SecretRefs(byReference, hc);
      }
    }
  }

  lemma ConfigMapsReadableIff(inp: Inputs, hc: HostedClusterSpec, pools: seq<NodePoolSpec>)
    ensures (forall n | n in ConfigMapRefs(hc, pools) :: n in inp.configMaps)
       <==> (forall name :: NamesConfigMap(hc, pools, name) ==> name in inp.configMaps)
  {
    forall n ensures n in ConfigMapRefs(hc, pools) <==> NamesConfigMap(hc, pools, n) {
      ConfigMapRefsIff(hc, pools, n);
    }
  }

  /** The pull secret and the SSH key that are to be copied can be read. */
  predicate CopiesReadable(inp: Inputs, hc: HostedClusterSpec) {
    && (hc.pullSecret != "" && !inp.configure ==> hc.pullSecret in inp.secrets)
    && (hc.sshKey != "" && !BadAzure(inp, hc) ==> hc.sshKey in inp.secrets)
  }

  /** Exactly when the loaders succeed, on a cluster and pools that can be read. */
  lemma AssemblesIff(inp: Inputs, stored: seq<Manifest>, hc: HostedClusterSpec, pools: seq<NodePool>)
    requires Deploys(inp, hc) && DeploysPools(inp, pools)
    ensures Assembles(inp, stored)
       <==> && CopiesReadable(inp, hc)
            && (forall name :: Refers(inp, hc, name) ==>
                  || name in inp.secrets || IsStored(stored, name)
                  || (inp.configure && !NamesGivenSecret(!inp.configure && inp.clusterRef != "", hc, name)))
            && (forall name :: NamesConfigMap(hc, PoolSpecs(pools), name) ==> name in inp.configMaps)
  {
    ChosenIs(inp, hc);
    ChosenPoolsAre(inp, pools);
    AllResolveIff(inp, stored, ByReference(inp), hc);
    ConfigMapsReadableIff(inp, hc, PoolSpecs(pools));
  }

  /** A cluster or a pool that cannot be read ends them. */
  lemma AssemblesNeedsReferences(inp: Inputs, stored: seq<Manifest>)
    requires !inp.configure
    requires (inp.clusterRef != "" && inp.referencedCluster == None)
             || exists i | 0 <= i < |inp.poolRefs| :: inp.poolRefs[i] !in inp.referencedPools
    ensures !Assembles(inp, stored)
  {
  }

  // ---- namespace, cluster and pools ----------------------------------------------------------------

  /** The head as it is written out, and where in the payload its parts lie. */
  lemma HeadSpelledOut(inp: Inputs, stored: seq<Manifest>, hc: HostedClusterSpec, pools: seq<NodePool>)
    requires Assembles(inp, stored) && Deploys(inp, hc) && DeploysPools(inp, pools)
    ensures var payload := Assembled(inp, stored);
            && |payload| >= 2 + |pools|
            && payload[0] == Namespace(inp.hostingNamespace)
            && payload[1] == HostedClusterObj(
                               inp.hostingNamespace, inp.name,
                               hc.(sshKey := if hc.sshKey == "" && inp.provider.sshKeys.Some? && !BadAzure(inp, hc)
                                             then inp.name + "-ssh-key" else hc.sshKey))
            && forall i | 0 <= i < |pools| ::
                 payload[2 + i] == NodePoolObj(inp.hostingNamespace, pools[i].name, pools[i].spec)
  {
    ChosenIs(inp, hc);
    ChosenPoolsAre(inp, pools);
    HeadIsHead(inp, hc, pools);
    assert Assembled(inp, stored)[..|Head(inp)|] == Head(inp);
  }

  lemma HeadIsHead(inp: Inputs, hc: HostedClusterSpec, pools: seq<NodePool>)
    requires ChosenCluster(inp) == Some(hc) && PoolsReadable(inp) && pools == ChosenPools(inp)
    requires ReferenceSecrets(inp, hc).Some?
    ensures |Head(inp)| == 2 + |pools| + |ReferenceSecrets(inp, hc).value|
    ensures Head(inp)[0] == Namespace(inp.hostingNamespace)
    ensures Head(inp)[1] == HostedClusterObj(
                              inp.hostingNamespace, inp.name,
                              hc.(sshKey := if hc.sshKey == "" && inp.provider.sshKeys.Some? && !BadAzure(inp, hc)
                                            then inp.name + "-ssh-key" else hc.sshKey))
    ensures forall i | 0 <= i < |pools| ::
              Head(inp)[2 + i] == NodePoolObj(inp.hostingNamespace, pools[i].name, pools[i].spec)
    ensures Head(inp)[2 + |pools|..] == ReferenceSecrets(inp, hc).value
  {
  }

  // ---- the secrets that go with the cluster --------------------------------------------------------

  /** `m` is the pull secret: the provider's with configure, otherwise a copy of the user's. */
  predicate IsPullSecret(inp: Inputs, hc: HostedClusterSpec, m: Manifest) {
    && hc.pullSecret != "" && m.Secret? && m.namespace == inp.hostingNamespace && m.name == hc.pullSecret
    && if inp.configure then m.data == inp.provider.pullSecret
       else hc.pullSecret in inp.secrets && m.data == inp.secrets[hc.pullSecret]
  }

  /** `m` carries the ARN of one of the three AWS components, or the provider's Azure credentials. */
  predicate IsCloudSecret(inp: Inputs, hc: HostedClusterSpec, m: Manifest) {
    && m.Secret? && m.namespace == inp.hostingNamespace
    && if hc.aws.Some? then
         && inp.credentials.Some?
         && (|| (m.name == hc.aws.value.controlPlaneOperatorCreds && m.data == inp.credentials.value.controlPlaneOperator)
             || (m.name == hc.aws.value.kubeCloudControllerCreds && m.data == inp.credentials.value.kubeCloudController)
             || (m.name == hc.aws.value.nodePoolManagementCreds && m.data == inp.credentials.value.nodePoolManagement))
       else
         hc.azureCredentials == Some(m.name) && inp.provider.azureCredentials == Some(m.data)
  }

  /** `m` is the SSH key: a copy of the one the cluster names, or the provider's under the deployment's name. */
  predicate IsSshSecret(inp: Inputs, hc: HostedClusterSpec, m: Manifest) {
    && m.Secret? && m.namespace == inp.hostingNamespace
    && if hc.sshKey != "" then m.name == hc.sshKey && hc.sshKey in inp.secrets && m.data == inp.secrets[hc.sshKey]
       else m.name == inp.name + "-ssh-key" && inp.provider.sshKeys == Some(m.data)
  }

  lemma CloudSecretsIff(inp: Inputs, hc: HostedClusterSpec, m: Manifest)
    requires !UnusableAzure(inp, hc)
    ensures m in CloudSecrets(inp, hc) <==> IsCloudSecret(inp, hc, m)
  {
  }

  /** Exactly these secrets go with the cluster; none, if Azure credentials do not parse. */
  lemma ReferenceSecretsIff(inp: Inputs, hc: HostedClusterSpec, m: Manifest)
    requires Deploys(inp, hc) && CopiesReadable(inp, hc)
    ensures ReferenceSecrets(inp, hc).Some?
    ensures m in ReferenceSecrets(inp, hc).value
       <==> !BadAzure(inp, hc) && (IsPullSecret(inp, hc, m) || IsCloudSecret(inp, hc, m) || IsSshSecret(inp, hc, m))
  {
    if !BadAzure(inp, hc) {
      CloudSecretsIff(inp, hc, m);
    }
  }

  /** They lie between the pools and the objects the references resolve to. */
  lemma ReferenceSecretsLieBetween(inp: Inputs, stored: seq<Manifest>, hc: HostedClusterSpec, pools: seq<NodePool>)
    requires Assembles(inp, stored) && Deploys(inp, hc) && DeploysPools(inp, pools)
    ensures ReferenceSecrets(inp, hc).Some? && |Assembled(inp, stored)| >= 2 + |pools| + |ReferenceSecrets(inp, hc).value|
    ensures var at := 2 + |pools|;
            Assembled(inp, stored)[at..at + |ReferenceSecrets(inp, hc).value|] == ReferenceSecrets(inp, hc).value
    ensures var at := 2 + |pools| + |ReferenceSecrets(inp, hc).value|;
            Assembled(inp, stored)[at..] == Tail(inp, stored)
  {
    ChosenIs(inp, hc);
    ChosenPoolsAre(inp, pools);
    HeadIsHead(inp, hc, pools);
    var head := Head(inp);
    assert Assembled(inp, stored) == head + Tail(inp, stored);
    assert head == head[..2 + |pools|] + ReferenceSecrets(inp, hc).value;
  }

  // ---- one object for each reference ---------------------------------------------------------------

  /** What ensureConfiguration appends behind the first four loaders' manifests. */
  function Tail(inp: Inputs, stored: seq<Manifest>): seq<Manifest>
    requires Assembles(inp, stored)
  {
    Assembled(inp, stored)[|Head(inp)|..]
  }

  lemma {:induction false} ResolvedIff(inp: Inputs, stored: seq<Manifest>, refs: seq<SecretRef>, m: Manifest)
    ensures m in ResolvedSecrets(inp, stored, refs)
       <==> exists ref :: ref in refs && ResolveSecret(inp, stored, ref) == Some(m)
  {
    if refs != [] {
      var n := |refs| - 1;
      assert refs == refs[..n] + [refs[n]];
      ResolvedIff(inp, stored, refs[..n], m);
    }
  }

  lemma {:induction false} ResolvedConfigMapsIff(inp: Inputs, names: seq<string>, m: Manifest)
    ensures m in ResolvedConfigMaps(inp, names)
       <==> m.ConfigMap? && m.namespace == inp.hostingNamespace && m.name in names && m.name in inp.configMaps
  {
    if names != [] {
      var n := |names| - 1;
      assert names == names[..n] + [names[n]];
      ResolvedConfigMapsIff(inp, names[..n], m);
    }
  }

  lemma TailIs(inp: Inputs, stored: seq<Manifest>, hc: HostedClusterSpec, pools: seq<NodePool>)
    requires Assembles(inp, stored) && Deploys(inp, hc) && DeploysPools(inp, pools)
    ensures Tail(inp, stored)
         == ResolvedSecrets(inp, stored, SecretRefs(ByReference(inp), hc))
            + ResolvedConfigMaps(inp, ConfigMapRefs(hc, PoolSpecs(pools)))
  {
    ChosenIs(inp, hc);
    ChosenPoolsAre(inp, pools);
  }

  /** Behind the head there are only secrets and config maps the cluster and the pools refer to. */
  lemma TailHolds(inp: Inputs, stored: seq<Manifest>, hc: HostedClusterSpec, pools: seq<NodePool>, m: Manifest)
    requires Assembles(inp, stored) && Deploys(inp, hc) && DeploysPools(inp, pools)
    ensures m in Tail(inp, stored) && m.Secret? ==> Refers(inp, hc, m.name)
    ensures m in Tail(inp, stored) && !m.Secret?
       <==> m.ConfigMap? && m.namespace == inp.hostingNamespace && NamesConfigMap(hc, PoolSpecs(pools), m.name)
  {
    var refs, names := SecretRefs(ByReference(inp), hc), ConfigMapRefs(hc, PoolSpecs(pools));
    TailIs(inp, stored, hc, pools);
    ResolvedIff(inp, stored, refs, m);
    ResolvedConfigMapsIff(inp, names, m);
    AssemblesIff(inp, stored, hc, pools);
    if m.ConfigMap? {
      ConfigMapRefsIff(hc, PoolSpecs(pools), m.name);
    }
    if ref :| ref in refs && ResolveSecret(inp, stored, ref) == Some(m) {
      ResolvedIsSecret(inp, stored, ref);
      NamesSecretIff(ByReference(inp), hc, m.name);
    }
  }

  lemma ResolvedIsSecret(inp: Inputs, stored: seq<Manifest>, ref: SecretRef)
    requires ResolveSecret(inp, stored, ref).Some?
    ensures var m := ResolveSecret(inp, stored, ref).value; m.Secret? && m.name == ref.name
  {
    if FindSecret(stored, ref.name).Some? {
      FoundSecretIsThere(stored, ref.name);
    }
  }

  /** `m` is the only secret of its name. */
  predicate Only(manifests: seq<Manifest>, m: Manifest)
    requires m.Secret?
  {
    m in manifests && forall o | o in manifests && o.Secret? && o.name == m.name :: o == m
  }

  lemma OnlyResolved(inp: Inputs, stored: seq<Manifest>, hc: HostedClusterSpec, pools: seq<NodePool>, m: Manifest)
    requires Assembles(inp, stored) && Deploys(inp, hc) && DeploysPools(inp, pools)
    requires m.Secret? && Refers(inp, hc, m.name)
    requires forall ref | ref in SecretRefs(ByReference(inp), hc) && ref.name == m.name :: ResolveSecret(inp, stored, ref) == Some(m)
    ensures Only(Tail(inp, stored), m)
  {
    var refs, names := SecretRefs(ByReference(inp), hc), ConfigMapRefs(hc, PoolSpecs(pools));
    TailIs(inp, stored, hc, pools);
    NamesSecretIff(ByReference(inp), hc, m.name);
    ResolvedIff(inp, stored, refs, m);
    forall o | o in Tail(inp, stored) && o.Secret? && o.name == m.name ensures o == m {
      ResolvedConfigMapsIff(inp, names, o);
      ResolvedIff(inp, stored, refs, o);
      var ref :| ref in refs && ResolveSecret(inp, stored, ref) == Some(o);
      ResolvedIsSecret(inp, stored, ref);
    }
  }

  /** The user's secret is the one that is written, whatever the work holds. */
  lemma UsersSecretWins(inp: Inputs, stored: seq<Manifest>, hc: HostedClusterSpec, pools: seq<NodePool>, name: string)
    requires Assembles(inp, stored) && Deploys(inp, hc) && DeploysPools(inp, pools)
    requires Refers(inp, hc, name) && name in inp.secrets
    ensures Only(Tail(inp, stored), Secret(inp.hostingNamespace, name, inp.secrets[name]))
  {
    OnlyResolved(inp, stored, hc, pools, Secret(inp.hostingNamespace, name, inp.secrets[name]));
  }

  /** Without one, it is the first of that name in the work. */
  lemma StoredSecretIsKept(
    inp: Inputs, stored: seq<Manifest>, hc: HostedClusterSpec, pools: seq<NodePool>, name: string, i: nat)
    requires Assembles(inp, stored) && Deploys(inp, hc) && DeploysPools(inp, pools)
    requires Refers(inp, hc, name) && name !in inp.secrets
    requires i < |stored| && stored[i].Secret? && stored[i].name == name
    requires forall k | 0 <= k < i :: !(stored[k].Secret? && stored[k].name == name)
    ensures Only(Tail(inp, stored), stored[i])
  {
    FoundIsFirst(stored, name, i);
    OnlyResolved(inp, stored, hc, pools, stored[i]);
  }

  /** Without either, it is a fresh one, and only with configure and for the active key alone. */
  lemma SecretIsGenerated(inp: Inputs, stored: seq<Manifest>, hc: HostedClusterSpec, pools: seq<NodePool>, name: string)
    requires Assembles(inp, stored) && Deploys(inp, hc) && DeploysPools(inp, pools)
    requires Refers(inp, hc, name) && name !in inp.secrets && !IsStored(stored, name)
    ensures inp.configure && IsActiveKey(hc, name) && !NamesGivenSecret(false, hc, name)
    ensures Only(Tail(inp, stored), Secret(inp.hostingNamespace, name, inp.generated))
  {
    AssemblesIff(inp, stored, hc, pools);
    FoundIff(stored, name);
    OnlyResolved(inp, stored, hc, pools, Secret(inp.hostingNamespace, name, inp.generated));
  }

  // ---- over the rounds of reconciling ----------------------------------------------------------------

  /** A round that fails or does not get to write leaves the stored payload; any other replaces it. */
  lemma RoundStoresIff(stored: Option<seq<Manifest>>, r: Round, view: seq<Manifest>)
    requires view == if r.seen && stored.Some? then stored.value else []
    ensures r.written && Assembles(r.inputs, view) ==> AfterRound(stored, r) == Some(Assembled(r.inputs, view))
    ensures !(r.written && Assembles(r.inputs, view)) ==> AfterRound(stored, r) == stored
  {
  }

  /** The secret a round that writes leaves under a name the cluster refers to. */
  lemma RoundWritesSecret(
    stored: Option<seq<Manifest>>, r: Round, view: seq<Manifest>, hc: HostedClusterSpec, pools: seq<NodePool>,
    name: string)
    requires view == if r.seen && stored.Some? then stored.value else []
    requires r.written && Assembles(r.inputs, view) && Deploys(r.inputs, hc) && DeploysPools(r.inputs, pools)
    requires Refers(r.inputs, hc, name)
    ensures AfterRound(stored, r).Some? && |AfterRound(stored, r).value| >= |Head(r.inputs)|
    ensures var ns, tail := r.inputs.hostingNamespace, AfterRound(stored, r).value[|Head(r.inputs)|..];
            && (name in r.inputs.secrets ==> Only(tail, Secret(ns, name, r.inputs.secrets[name])))
            && (name !in r.inputs.secrets && IsStored(view, name) ==>
                  exists i | 0 <= i < |view| :: view[i].Secret? && view[i].name == name && Only(tail, view[i]))
            && (name !in r.inputs.secrets && !IsStored(view, name) ==>
                  r.inputs.configure && IsActiveKey(hc, name) && Only(tail, Secret(ns, name, r.inputs.generated)))
  {
    RoundStoresIff(stored, r, view);
    if name in r.inputs.secrets {
      UsersSecretWins(r.inputs, view, hc, pools, name);
    } else if IsStored(view, name) {
      var i := FirstStored(view, name);
      StoredSecretIsKept(r.inputs, view, hc, pools, name, i);
    } else {
      SecretIsGenerated(r.inputs, view, hc, pools, name);
    }
  }

  lemma {:induction false} FirstStored(stored: seq<Manifest>, name: string) returns (i: nat)
    requires IsStored(stored, name)
    ensures i < |stored| && stored[i].Secret? && stored[i].name == name
    ensures forall k | 0 <= k < i :: !(stored[k].Secret? && stored[k].name == name)
  {
    i := 0;
    while !(stored[i].Secret? && stored[i].name == name)
      invariant i < |stored|
      invariant forall k | 0 <= k < i :: !(stored[k].Secret? && stored[k].name == name)
      decreases |stored| - i
    {
      i := i + 1;
    }
  }

  // ---- closure ---------------------------------------------------------------------------------------

  lemma {:induction false} PoolSpecsInIff(payload: seq<Manifest>, spec: NodePoolSpec)
    ensures spec in PoolSpecsIn(payload) <==> exists i | 0 <= i < |payload| :: payload[i].NodePoolObj? && payload[i].poolSpec == spec
  {
    if payload != [] {
      var n := |payload| - 1;
      PoolSpecsInIff(payload[..n], spec);
      assert forall i | 0 <= i < n :: payload[..n][i] == payload[i];
    }
  }

  /** The hosted cluster manifest, or one of the node pools, refers to a config map `name`. */
  predicate UsesConfigMap(payload: seq<Manifest>, hc: HostedClusterSpec, name: string) {
    || (hc.configuration.Some? && name in hc.configuration.value.configMapRefs)
    || (name != "" && hc.additionalTrustBundle == Some(name))
    || (exists i | 0 <= i < |payload| :: payload[i].NodePoolObj? && name in payload[i].poolSpec.config)
  }

  lemma UsesConfigMapIff(payload: seq<Manifest>, hc: HostedClusterSpec, name: string)
    ensures UsesConfigMap(payload, hc, name) <==> name in ConfigMapRefs(hc, PoolSpecsIn(payload))
  {
    var pools := PoolSpecsIn(payload);
    ConfigMapRefsIff(hc, pools, name);
    if i :| 0 <= i < |payload| && payload[i].NodePoolObj? && name in payload[i].poolSpec.config {
      PoolSpecsInIff(payload, payload[i].poolSpec);
    }
    if i :| 0 <= i < |pools| && name in pools[i].config {
      PoolSpecsInIff(payload, pools[i]);
    }
  }

  /** A well-formed payload holds every object its manifests refer to. */
  lemma WellFormedIff(ns: string, byReference: bool, payload: seq<Manifest>)
    requires Structured(ns, payload)
    ensures WellFormed(ns, byReference, payload)
       <==> && (payload[1].spec.aws.Some? || payload[1].spec.azureCredentials.None? ==>
                  HasNamedSecrets(ns, payload[1].spec, payload))
            && (forall name :: NamesSecret(byReference, payload[1].spec, name) ==> HasSecret(payload, ns, name))
            && (forall name :: UsesConfigMap(payload, payload[1].spec, name) ==> ConfigMap(ns, name) in payload)
  {
    var hc := payload[1].spec;
    forall name ensures NamesSecret(byReference, hc, name) <==> exists ref :: ref in SecretRefs(byReference, hc) && ref.name == name {
      NamesSecretIff(byReference, hc, name);
    }
    forall name ensures UsesConfigMap(payload, hc, name) <==> name in ConfigMapRefs(hc, PoolSpecsIn(payload)) {
      UsesConfigMapIff(payload, hc, name);
    }
    if forall name :: NamesSecret(byReference, hc, name) ==> HasSecret(payload, ns, name) {
      forall ref | ref in SecretRefs(byReference, hc) ensures HasSecret(payload, ns, ref.name) {
        assert NamesSecret(byReference, hc, ref.name);
      }
    }
  }
}
