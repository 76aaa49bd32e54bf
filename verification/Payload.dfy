/**
 The workload of a ManifestWork: how one reconcile assembles it from the deployment, the provider
 secret, the secrets and config maps on the hub, and the payload stored by the previous reconcile.
 */
module Payload {
  import opened Wrappers
  import opened Api

  type Data = string

  datatype Manifest =
    | Namespace(name: string)
    | HostedClusterObj(namespace: string, name: string, spec: HostedClusterSpec)
    | NodePoolObj(namespace: string, name: string, poolSpec: NodePoolSpec)
    | Secret(namespace: string, name: string, data: Data)
    | ConfigMap(namespace: string, name: string)

  /** The provider secret's entries that reach the payload. */
  datatype ProviderSecret = ProviderSecret(
    pullSecret: Data,
    sshKeys: Option<Data>,
    azureCredentials: Option<Data>)

  /** ARNs for the deprecated credentials block. */
  datatype Credentials = Credentials(controlPlaneOperator: string, kubeCloudController: string, nodePoolManagement: string)

  /**
   What one reconcile reads. `secrets` and `configMaps` are the objects of the deployment's
   namespace that could be read; a failed read is an absent key. `generated` is the key material the
   generator would produce in this reconcile. `referencedCluster` and `referencedPools` are what the
   dynamic client returns for the references, None where a Get or a conversion fails.
   */
  datatype Inputs = Inputs(
    name: string,
    hostingNamespace: string,
    configure: bool,
    clusterRef: string,
    poolRefs: seq<string>,
    ownCluster: HostedClusterSpec,
    ownPools: seq<NodePool>,
    referencedCluster: Option<HostedClusterSpec>,
    referencedPools: map<string, NodePool>,
    provider: ProviderSecret,
    credentials: Option<Credentials>,
    secrets: map<string, Data>,
    configMaps: set<string>,
    generated: Data)

  // ---- looking things up in a payload ------------------------------------------------------------

  function FindSecret(payload: seq<Manifest>, name: string): Option<Manifest> {
    if payload == [] then None
    else if payload[0].Secret? && payload[0].name == name then Some(payload[0])
    else FindSecret(payload[1..], name)
  }

  /** getManifestPayloadSecretByName. */
  method GetManifestPayloadSecretByName(payload: seq<Manifest>, name: string) returns (r: Option<Manifest>)
    ensures r == FindSecret(payload, name)
  {
    for i := 0 to |payload|
      invariant FindSecret(payload, name) == FindSecret(payload[i..], name)
    {
      if payload[i].Secret? && payload[i].name == name {
        return Some(payload[i]);
      }
    }
    return None;
  }

  lemma {:induction false} FoundSecretIsThere(payload: seq<Manifest>, name: string)
    requires FindSecret(payload, name).Some?
    ensures var m := FindSecret(payload, name).value; m in payload && m.Secret? && m.name == name
  {
    if !(payload[0].Secret? && payload[0].name == name) {
      FoundSecretIsThere(payload[1..], name);
      assert forall m | m in payload[1..] :: m in payload;
    }
  }

  lemma {:induction false} FindSecretSkips(a: seq<Manifest>, b: seq<Manifest>, name: string)
    requires forall m | m in a :: m.Secret? ==> m.name != name
    ensures FindSecret(a + b, name) == FindSecret(b, name)
  {
    if a == [] {
      assert a + b == b;
    } else {
      assert forall m | m in a[1..] :: m in a;
      assert (a + b)[1..] == a[1..] + b;
      FindSecretSkips(a[1..], b, name);
    }
  }

  // ---- references gathered from the hosted cluster and the pools -----------------------------------

  /** A secret the payload must carry; `generable` if the controller may create it. */
  datatype SecretRef = SecretRef(name: string, generable: bool)

  function PlainRefs(names: seq<string>): seq<SecretRef> {
    seq(|names|, i requires 0 <= i < |names| => SecretRef(names[i], false))
  }

  /** One reference unless the name is empty. */
  function RefIf(name: string, generable: bool): seq<SecretRef> {
    if name == "" then [] else [SecretRef(name, generable)]
  }

  function OptionalName(name: Option<string>): string {
    if name.Some? then name.value else ""
  }

  function EncryptionRefs(encryption: Option<SecretEncryption>): seq<SecretRef> {
    match encryption
    case None => []
    case Some(e) =>
      (if e.etype == AescbcType && e.aescbc.Some?
       then RefIf(e.aescbc.value.activeKey, true) + RefIf(OptionalName(e.aescbc.value.backupKey), false)
       else [])
      + if e.etype == KmsType then RefIf(OptionalName(e.kmsAwsAuth), false) else []
  }

  /** The AWS credential references that are only copied when the cluster comes from an object reference. */
  function CredentialRefs(byReference: bool, hc: HostedClusterSpec): seq<SecretRef> {
    if byReference && hc.aws.Some?
    then RefIf(hc.aws.value.controlPlaneOperatorCreds, false)
         + RefIf(hc.aws.value.kubeCloudControllerCreds, false)
         + RefIf(hc.aws.value.nodePoolManagementCreds, false)
    else []
  }

  function SecretRefs(byReference: bool, hc: HostedClusterSpec): seq<SecretRef> {
    (if hc.configuration.Some? then PlainRefs(hc.configuration.value.secretRefs) else [])
    + EncryptionRefs(hc.encryption)
    + RefIf(OptionalName(hc.serviceAccountSigningKey), false)
    + CredentialRefs(byReference, hc)
  }

  function PoolConfigs(pools: seq<NodePoolSpec>): seq<string> {
    if pools == [] then [] else PoolConfigs(pools[..|pools| - 1]) + pools[|pools| - 1].config
  }

  function ConfigMapRefs(hc: HostedClusterSpec, pools: seq<NodePoolSpec>): seq<string> {
    (if hc.configuration.Some? then hc.configuration.value.configMapRefs else [])
    + (if OptionalName(hc.additionalTrustBundle) != "" then [hc.additionalTrustBundle.value] else [])
    + PoolConfigs(pools)
  }

  /** `name` is the active key of an AESCBC encryption. */
  predicate IsActiveKey(hc: HostedClusterSpec, name: string) {
    && name != "" && hc.encryption.Some? && hc.encryption.value.etype == AescbcType
    && hc.encryption.value.aescbc.Some? && hc.encryption.value.aescbc.value.activeKey == name
  }

  /** The hosted cluster refers to a secret `name` that the controller may not generate. */
  predicate NamesGivenSecret(byReference: bool, hc: HostedClusterSpec, name: string) {
    || (hc.configuration.Some? && name in hc.configuration.value.secretRefs)
    || (name != "" && (
          || hc.serviceAccountSigningKey == Some(name)
          || (hc.encryption.Some? && hc.encryption.value.etype == AescbcType
              && hc.encryption.value.aescbc.Some? && hc.encryption.value.aescbc.value.backupKey == Some(name))
          || (hc.encryption.Some? && hc.encryption.value.etype == KmsType && hc.encryption.value.kmsAwsAuth == Some(name))
          || (byReference && hc.aws.Some? && (
                || hc.aws.value.controlPlaneOperatorCreds == name
                || hc.aws.value.kubeCloudControllerCreds == name
                || hc.aws.value.nodePoolManagementCreds == name))))
  }

  predicate NamesSecret(byReference: bool, hc: HostedClusterSpec, name: string) {
    IsActiveKey(hc, name) || NamesGivenSecret(byReference, hc, name)
  }

  /** The hosted cluster, or one of the pools, refers to a config map `name`. */
  predicate NamesConfigMap(hc: HostedClusterSpec, pools: seq<NodePoolSpec>, name: string) {
    || (hc.configuration.Some? && name in hc.configuration.value.configMapRefs)
    || (name != "" && hc.additionalTrustBundle == Some(name))
    || (exists i | 0 <= i < |pools| :: name in pools[i].config)
  }

  lemma PlainRefsIff(names: seq<string>, ref: SecretRef)
    ensures ref in PlainRefs(names) <==> !ref.generable && ref.name in names
  {
    if ref.name in names {
      var i :| 0 <= i < |names| && names[i] == ref.name;
      assert PlainRefs(names)[i] == SecretRef(ref.name, false);
    }
  }

  lemma EncryptionRefsIff(encryption: Option<SecretEncryption>, ref: SecretRef)
    ensures ref in EncryptionRefs(encryption)
       <==> && ref.name != "" && encryption.Some?
            && (|| (encryption.value.etype == AescbcType && encryption.value.aescbc.Some?
                    && if ref.generable then encryption.value.aescbc.value.activeKey == ref.name
                       else encryption.value.aescbc.value.backupKey == Some(ref.name))
                || (encryption.value.etype == KmsType && !ref.generable && encryption.value.kmsAwsAuth == Some(ref.name)))
  {
  }

  lemma CredentialRefsIff(byReference: bool, hc: HostedClusterSpec, ref: SecretRef)
    ensures ref in CredentialRefs(byReference, hc)
       <==> && byReference && hc.aws.Some? && ref.name != "" && !ref.generable
            && (|| hc.aws.value.controlPlaneOperatorCreds == ref.name
                || hc.aws.value.kubeCloudControllerCreds == ref.name
                || hc.aws.value.nodePoolManagementCreds == ref.name)
  {
  }

  /** What is gathered is what the hosted cluster names, and only its active key is generable. */
  lemma SecretRefsIff(byReference: bool, hc: HostedClusterSpec, ref: SecretRef)
    ensures ref in SecretRefs(byReference, hc)
       <==> if ref.generable then IsActiveKey(hc, ref.name) else NamesGivenSecret(byReference, hc, ref.name)
  {
    if hc.configuration.Some? {
      PlainRefsIff(hc.configuration.value.secretRefs, ref);
    }
    EncryptionRefsIff(hc.encryption, ref);
    CredentialRefsIff(byReference, hc, ref);
  }

  lemma NamesSecretIff(byReference: bool, hc: HostedClusterSpec, name: string)
    ensures NamesSecret(byReference, hc, name) <==> exists ref :: ref in SecretRefs(byReference, hc) && ref.name == name
  {
    SecretRefsIff(byReference, hc, SecretRef(name, true));
    SecretRefsIff(byReference, hc, SecretRef(name, false));
    if ref :| ref in SecretRefs(byReference, hc) && ref.name == name {
      assert ref == SecretRef(name, true) || ref == SecretRef(name, false);
    }
  }

  lemma {:induction false} PoolConfigsIff(pools: seq<NodePoolSpec>, name: string)
    ensures name in PoolConfigs(pools) <==> exists i | 0 <= i < |pools| :: name in pools[i].config
  {
    if pools != [] {
      var n := |pools| - 1;
      PoolConfigsIff(pools[..n], name);
      assert forall i | 0 <= i < n :: pools[..n][i] == pools[i];
    }
  }

  lemma ConfigMapRefsIff(hc: HostedClusterSpec, pools: seq<NodePoolSpec>, name: string)
    ensures name in ConfigMapRefs(hc, pools) <==> NamesConfigMap(hc, pools, name)
  {
    PoolConfigsIff(pools, name);
  }

  // ---- resolving a secret --------------------------------------------------------------------------

  /** User's secret, else the one already in the work, else a generated one, else nothing. */
  function ResolveSecret(inp: Inputs, stored: seq<Manifest>, ref: SecretRef): Option<Manifest> {
    if ref.name in inp.secrets then Some(Secret(inp.hostingNamespace, ref.name, inp.secrets[ref.name]))
    else if FindSecret(stored, ref.name).Some? then FindSecret(stored, ref.name)
    else if inp.configure && ref.generable then Some(Secret(inp.hostingNamespace, ref.name, inp.generated))
    else None
  }

  predicate AllResolve(inp: Inputs, stored: seq<Manifest>, refs: seq<SecretRef>) {
    forall ref | ref in refs :: ResolveSecret(inp, stored, ref).Some?
  }

  /** The resolved secrets, in the order of the references. */
  function ResolvedSecrets(inp: Inputs, stored: seq<Manifest>, refs: seq<SecretRef>): seq<Manifest> {
    if refs == [] then []
    else
      var r := ResolveSecret(inp, stored, refs[|refs| - 1]);
      ResolvedSecrets(inp, stored, refs[..|refs| - 1]) + if r.Some? then [r.value] else []
  }

  function ResolvedConfigMaps(inp: Inputs, names: seq<string>): seq<Manifest> {
    if names == [] then []
    else
      var n := names[|names| - 1];
      ResolvedConfigMaps(inp, names[..|names| - 1])
      + if n in inp.configMaps then [ConfigMap(inp.hostingNamespace, n)] else []
  }

  // ---- the other parts of the payload ------------------------------------------------------------

  /** The hosted cluster comes from an object reference instead of the deployment's own spec. */
  predicate ByReference(inp: Inputs) {
    !inp.configure && inp.clusterRef != ""
  }

  /** The hosted cluster spec this reconcile deploys; None where the reference cannot be read. */
  function ChosenCluster(inp: Inputs): Option<HostedClusterSpec> {
    if ByReference(inp) then inp.referencedCluster else Some(inp.ownCluster)
  }

  predicate UsesPoolRefs(inp: Inputs) {
    !inp.configure && inp.poolRefs != []
  }

  predicate PoolsReadable(inp: Inputs) {
    UsesPoolRefs(inp) ==> forall r | r in inp.poolRefs :: r in inp.referencedPools
  }

  function ChosenPools(inp: Inputs): seq<NodePool>
    requires PoolsReadable(inp)
  {
    if UsesPoolRefs(inp)
    then seq(|inp.poolRefs|, i requires 0 <= i < |inp.poolRefs| => inp.referencedPools[inp.poolRefs[i]])
    else inp.ownPools
  }

  function PoolManifests(inp: Inputs, pools: seq<NodePool>): (r: seq<Manifest>)
    ensures |r| == |pools|
  {
    seq(|pools|, i requires 0 <= i < |pools| => NodePoolObj(inp.hostingNamespace, pools[i].name, pools[i].spec))
  }

  function PoolSpecs(pools: seq<NodePool>): (r: seq<NodePoolSpec>)
    ensures |r| == |pools|
  {
    seq(|pools|, i requires 0 <= i < |pools| => pools[i].spec)
  }

  /** The pull secret; None where it must be copied and cannot be read. */
  function PullSecret(inp: Inputs, hc: HostedClusterSpec): Option<seq<Manifest>> {
    if hc.pullSecret == "" then Some([])
    else if inp.configure
    then Some([Secret(inp.hostingNamespace, inp.ownCluster.pullSecret, inp.provider.pullSecret)])
    else if hc.pullSecret in inp.secrets
    then Some([Secret(inp.hostingNamespace, hc.pullSecret, inp.secrets[hc.pullSecret])])
    else None
  }

  /** Azure credentials that do not parse: the step gives up without an error and without the pull secret. */
  predicate UnusableAzure(inp: Inputs, hc: HostedClusterSpec) {
    hc.aws.None? && hc.azureCredentials.Some? && inp.provider.azureCredentials.None?
  }

  function CloudSecrets(inp: Inputs, hc: HostedClusterSpec): seq<Manifest>
    requires !UnusableAzure(inp, hc)
  {
    var ns := inp.hostingNamespace;
    if hc.aws.Some? then
      if inp.credentials.Some?
      then [Secret(ns, hc.aws.value.controlPlaneOperatorCreds, inp.credentials.value.controlPlaneOperator),
            Secret(ns, hc.aws.value.kubeCloudControllerCreds, inp.credentials.value.kubeCloudController),
            Secret(ns, hc.aws.value.nodePoolManagementCreds, inp.credentials.value.nodePoolManagement)]
      else []
    else if hc.azureCredentials.Some?
    then [Secret(ns, hc.azureCredentials.value, inp.provider.azureCredentials.value)]
    else []
  }

  /** The SSH key, copied or taken from the provider secret; None where it must be copied and cannot be read. */
  function SshSecret(inp: Inputs, hc: HostedClusterSpec): Option<seq<Manifest>> {
    if hc.sshKey != "" then
      if hc.sshKey in inp.secrets
      then Some([Secret(inp.hostingNamespace, hc.sshKey, inp.secrets[hc.sshKey])])
      else None
    else if inp.provider.sshKeys.Some?
    then Some([Secret(inp.hostingNamespace, inp.name + "-ssh-key", inp.provider.sshKeys.value)])
    else Some([])
  }

  function ReferenceSecrets(inp: Inputs, hc: HostedClusterSpec): Option<seq<Manifest>> {
    if PullSecret(inp, hc).None? then None
    else if UnusableAzure(inp, hc) then Some([])
    else if SshSecret(inp, hc).None? then None
    else Some(PullSecret(inp, hc).value + CloudSecrets(inp, hc) + SshSecret(inp, hc).value)
  }

  /** The SSH key name is written into the hosted cluster manifest when the provider secret supplies the key. */
  function WithSshKey(inp: Inputs, hc: HostedClusterSpec): HostedClusterSpec {
    if !UnusableAzure(inp, hc) && hc.sshKey == "" && inp.provider.sshKeys.Some?
    then hc.(sshKey := inp.name + "-ssh-key")
    else hc
  }

  predicate Assembles(inp: Inputs, stored: seq<Manifest>) {
    && ChosenCluster(inp).Some?
    && PoolsReadable(inp)
    && ReferenceSecrets(inp, ChosenCluster(inp).value).Some?
    && AllResolve(inp, stored, SecretRefs(ByReference(inp), ChosenCluster(inp).value))
    && (forall n | n in ConfigMapRefs(ChosenCluster(inp).value, PoolSpecs(ChosenPools(inp))) :: n in inp.configMaps)
  }

  /** Namespace, hosted cluster, node pools and reference secrets: what the first four loaders append. */
  function Head(inp: Inputs): seq<Manifest>
    requires ChosenCluster(inp).Some? && PoolsReadable(inp)
    requires ReferenceSecrets(inp, ChosenCluster(inp).value).Some?
  {
    var hc := ChosenCluster(inp).value;
    [Namespace(inp.hostingNamespace), HostedClusterObj(inp.hostingNamespace, inp.name, WithSshKey(inp, hc))]
    + PoolManifests(inp, ChosenPools(inp))
    + ReferenceSecrets(inp, hc).value
  }

  function Assembled(inp: Inputs, stored: seq<Manifest>): seq<Manifest>
    requires Assembles(inp, stored)
  {
    var hc := ChosenCluster(inp).value;
    Head(inp)
    + ResolvedSecrets(inp, stored, SecretRefs(ByReference(inp), hc))
    + ResolvedConfigMaps(inp, ConfigMapRefs(hc, PoolSpecs(ChosenPools(inp))))
  }

  /** Position of the first hosted cluster manifest, or the length of the payload. */
  function ClusterIndex(payload: seq<Manifest>): (r: nat)
    ensures r <= |payload|
    ensures r < |payload| ==> payload[r].HostedClusterObj?
  {
    if payload == [] then 0
    else if payload[0].HostedClusterObj? then 0
    else 1 + ClusterIndex(payload[1..])
  }

  /** The node-pool specs of a payload, in order. */
  function PoolSpecsIn(payload: seq<Manifest>): seq<NodePoolSpec> {
    if payload == [] then []
    else PoolSpecsIn(payload[..|payload| - 1])
         + if payload[|payload| - 1].NodePoolObj? then [payload[|payload| - 1].poolSpec] else []
  }

  lemma {:induction false} PoolSpecsInAppend(a: seq<Manifest>, b: seq<Manifest>)
    ensures PoolSpecsIn(a + b) == PoolSpecsIn(a) + PoolSpecsIn(b)
  {
    if b == [] {
      assert a + b == a;
    } else {
      assert (a + b)[..|a + b| - 1] == a + b[..|b| - 1];
      PoolSpecsInAppend(a, b[..|b| - 1]);
    }
  }

  lemma {:induction false} PoolSpecsInOthers(payload: seq<Manifest>)
    requires forall m | m in payload :: !m.NodePoolObj?
    ensures PoolSpecsIn(payload) == []
  {
    if payload != [] {
      PoolSpecsInOthers(payload[..|payload| - 1]);
    }
  }

  lemma {:induction false} PoolSpecsInManifests(inp: Inputs, pools: seq<NodePool>)
    ensures PoolSpecsIn(PoolManifests(inp, pools)) == PoolSpecs(pools)
  {
    if pools != [] {
      var n := |pools| - 1;
      assert PoolManifests(inp, pools)[..n] == PoolManifests(inp, pools[..n]);
      assert PoolSpecs(pools) == PoolSpecs(pools[..n]) + [pools[n].spec];
      PoolSpecsInManifests(inp, pools[..n]);
    }
  }

  lemma ReferenceSecretsAreSecrets(inp: Inputs, hc: HostedClusterSpec)
    requires ReferenceSecrets(inp, hc).Some?
    ensures forall m | m in ReferenceSecrets(inp, hc).value :: m.Secret? && m.namespace == inp.hostingNamespace
  {
  }

  lemma PoolSpecsInParts(front: seq<Manifest>, pools: seq<Manifest>, back: seq<Manifest>)
    requires forall m | m in front :: !m.NodePoolObj?
    requires forall m | m in back :: !m.NodePoolObj?
    ensures PoolSpecsIn(front + pools + back) == PoolSpecsIn(pools)
  {
    PoolSpecsInOthers(front);
    PoolSpecsInOthers(back);
    PoolSpecsInAppend(front, pools);
    PoolSpecsInAppend(front + pools, back);
  }

  lemma ClusterIndexIsOne(payload: seq<Manifest>)
    requires |payload| >= 2 && payload[0].Namespace? && payload[1].HostedClusterObj?
    ensures ClusterIndex(payload) == 1
  {
    assert ClusterIndex(payload[1..]) == 0;
  }

  /** Reading the hosted cluster and the pools back from the head finds what the loaders chose. */
  lemma HeadReadsBack(inp: Inputs)
    requires ChosenCluster(inp).Some? && PoolsReadable(inp)
    requires ReferenceSecrets(inp, ChosenCluster(inp).value).Some?
    ensures ClusterIndex(Head(inp)) == 1
    ensures Head(inp)[1] == HostedClusterObj(inp.hostingNamespace, inp.name, WithSshKey(inp, ChosenCluster(inp).value))
    ensures PoolSpecsIn(Head(inp)) == PoolSpecs(ChosenPools(inp))
  {
    var hc := ChosenCluster(inp).value;
    var two := [Namespace(inp.hostingNamespace), HostedClusterObj(inp.hostingNamespace, inp.name, WithSshKey(inp, hc))];
    var pools, refs := PoolManifests(inp, ChosenPools(inp)), ReferenceSecrets(inp, hc).value;
    ReferenceSecretsAreSecrets(inp, hc);
    PoolSpecsInManifests(inp, ChosenPools(inp));
    PoolSpecsInParts(two, pools, refs);
    assert Head(inp) == two + pools + refs;
    ClusterIndexIsOne(Head(inp));
  }

  // ---- the loaders, appending through the payload pointer -------------------------------------------

  /** The payload slice the loaders append to, and the list of errors ensureConfiguration collects. */
  class Builder {
    var payload: seq<Manifest>
    var allErr: seq<string>

    constructor ()
      ensures payload == [] && allErr == []
    {
      payload := [];
      allErr := [];
    }

    method EnsureTargetNamespace(inp: Inputs)
      modifies this`payload
      ensures payload == old(payload) + [Namespace(inp.hostingNamespace)]
    {
      payload := payload + [Namespace(inp.hostingNamespace)];
    }

    method AppendHostedCluster(inp: Inputs) returns (ok: bool)
      modifies this`payload
      ensures ok == ChosenCluster(inp).Some?
      ensures payload == old(payload)
                         + if ok then [HostedClusterObj(inp.hostingNamespace, inp.name, ChosenCluster(inp).value)] else []
    {
      var spec := inp.ownCluster;
      if !inp.configure && inp.clusterRef != "" {
        if inp.referencedCluster == None {
          return false;
        }
        spec := inp.referencedCluster.value;
      }
      payload := payload + [HostedClusterObj(inp.hostingNamespace, inp.name, spec)];
      return true;
    }

    method AppendNodePools(inp: Inputs) returns (ok: bool)
      modifies this`payload
      ensures ok == PoolsReadable(inp)
      ensures ok ==> payload == old(payload) + PoolManifests(inp, ChosenPools(inp))
    {
      if !inp.configure && |inp.poolRefs| != 0 {
        ghost var done := [];
        for i := 0 to |inp.poolRefs|
          invariant forall k | 0 <= k < i :: inp.poolRefs[k] in inp.referencedPools
          invariant |done| == i && payload == old(payload) + done
          invariant forall k | 0 <= k < i ::
                      var np := inp.referencedPools[inp.poolRefs[k]];
                      done[k] == NodePoolObj(inp.hostingNamespace, np.name, np.spec)
        {
          if inp.poolRefs[i] !in inp.referencedPools {
            assert inp.poolRefs[i] in inp.poolRefs;
            return false;
          }
          var np := inp.referencedPools[inp.poolRefs[i]];
          done := done + [NodePoolObj(inp.hostingNamespace, np.name, np.spec)];
          payload := payload + [NodePoolObj(inp.hostingNamespace, np.name, np.spec)];
        }
        assert PoolsReadable(inp);
        assert done == PoolManifests(inp, ChosenPools(inp));
      } else {
        ghost var done := [];
        for i := 0 to |inp.ownPools|
          invariant |done| == i && payload == old(payload) + done
          invariant done == PoolManifests(inp, inp.ownPools)[..i]
        {
          var np := inp.ownPools[i];
          done := done + [NodePoolObj(inp.hostingNamespace, np.name, np.spec)];
          payload := payload + [NodePoolObj(inp.hostingNamespace, np.name, np.spec)];
        }
        assert done == PoolManifests(inp, ChosenPools(inp));
      }
      return true;
    }

    /** Adds the pull secret to the list. */
    method CollectPullSecret(inp: Inputs, hc: HostedClusterSpec) returns (ok: bool, secrets: seq<Manifest>)
      ensures ok == PullSecret(inp, hc).Some?
      ensures ok ==> secrets == PullSecret(inp, hc).value
    {
      secrets := [];
      if |hc.pullSecret| != 0 {
        if !inp.configure {
          if hc.pullSecret !in inp.secrets {
            return false, secrets;
          }
          secrets := [Secret(inp.hostingNamespace, hc.pullSecret, inp.secrets[hc.pullSecret])];
        } else {
          secrets := [Secret(inp.hostingNamespace, inp.ownCluster.pullSecret, inp.provider.pullSecret)];
        }
      }
      return true, secrets;
    }

    method CollectCloudSecrets(inp: Inputs, hc: HostedClusterSpec) returns (ok: bool, secrets: seq<Manifest>)
      ensures ok == !UnusableAzure(inp, hc)
      ensures ok ==> secrets == CloudSecrets(inp, hc)
    {
      secrets := [];
      var ns := inp.hostingNamespace;
      if hc.aws.Some? {
        if inp.credentials.Some? {
          var aws, arns := hc.aws.value, inp.credentials.value;
          secrets := [Secret(ns, aws.controlPlaneOperatorCreds, arns.controlPlaneOperator),
                      Secret(ns, aws.kubeCloudControllerCreds, arns.kubeCloudController),
                      Secret(ns, aws.nodePoolManagementCreds, arns.nodePoolManagement)];
        }
      } else if hc.azureCredentials.Some? {
        if inp.provider.azureCredentials == None {
          return false, secrets;
        }
        secrets := [Secret(ns, hc.azureCredentials.value, inp.provider.azureCredentials.value)];
      }
      return true, secrets;
    }

    /** appendHostedClusterReferenceSecrets. */
    method AppendReferenceSecrets(inp: Inputs) returns (ok: bool)
      requires ClusterIndex(payload) < |payload|
      modifies this`payload
      ensures var at, before := ClusterIndex(old(payload)), old(payload);
              var hc := before[at].spec;
              && ok == ReferenceSecrets(inp, hc).Some?
              && (ok ==> payload == before[at := before[at].(spec := WithSshKey(inp, hc))]
                                    + ReferenceSecrets(inp, hc).value)
    {
      ghost var before := payload;
      var at := FindCluster();
      var hc := payload[at].spec;
      var refSecrets;
      ok, refSecrets := CollectPullSecret(inp, hc);
      if !ok {
        return;
      }
      var usable, cloud := CollectCloudSecrets(inp, hc);
      if !usable {
        assert before == before[at := before[at].(spec := hc)] + [];
        return true;
      }
      refSecrets := refSecrets + cloud;
      if |hc.sshKey| != 0 {
        if hc.sshKey !in inp.secrets {
          return false;
        }
        refSecrets := refSecrets + [Secret(inp.hostingNamespace, hc.sshKey, inp.secrets[hc.sshKey])];
      } else if inp.provider.sshKeys.Some? {
        refSecrets := refSecrets + [Secret(inp.hostingNamespace, inp.name + "-ssh-key", inp.provider.sshKeys.value)];
        payload := payload[at := payload[at].(spec := hc.(sshKey := inp.name + "-ssh-key"))];
      }
      AppendAll(refSecrets);
      return true;
    }

    method AppendAll(manifests: seq<Manifest>)
      modifies this`payload
      ensures payload == old(payload) + manifests
    {
      for i := 0 to |manifests|
        invariant payload == old(payload) + manifests[..i]
      {
        payload := payload + [manifests[i]];
      }
    }

    /** The search of getHostedClusterInManifestPayload. */
    method FindCluster() returns (at: nat)
      ensures at == ClusterIndex(payload)
    {
      at := 0;
      while at < |payload| && !payload[at].HostedClusterObj?
        invariant at <= |payload|
        invariant ClusterIndex(payload) == at + ClusterIndex(payload[at..])
      {
        at := at + 1;
      }
    }

    /** getNodePoolsInManifestPayload. */
    method NodePoolsInPayload() returns (pools: seq<NodePoolSpec>)
      ensures pools == PoolSpecsIn(payload)
    {
      pools := [];
      for i := 0 to |payload|
        invariant pools == PoolSpecsIn(payload[..i])
      {
        assert payload[..i + 1][..i] == payload[..i];
        if payload[i].NodePoolObj? {
          pools := pools + [payload[i].poolSpec];
        }
      }
      assert payload[..|payload|] == payload;
    }

    /** The resolution loop of ensureConfiguration. */
    method AppendSecrets(inp: Inputs, stored: seq<Manifest>, secretRefs: seq<SecretRef>)
      modifies this
      ensures payload == old(payload) + ResolvedSecrets(inp, stored, secretRefs)
      ensures allErr == old(allErr) <==> AllResolve(inp, stored, secretRefs)
      ensures |allErr| >= |old(allErr)|
    {
      ghost var base := payload;
      for i := 0 to |secretRefs|
        invariant payload == base + ResolvedSecrets(inp, stored, secretRefs[..i])
        invariant |allErr| >= |old(allErr)|
        invariant |allErr| == |old(allErr)| ==> allErr == old(allErr)
        invariant |allErr| == |old(allErr)| <==> AllResolve(inp, stored, secretRefs[..i])
      {
        assert secretRefs[..i + 1] == secretRefs[..i] + [secretRefs[i]];
        assert secretRefs[..i + 1][..i] == secretRefs[..i];
        var se := secretRefs[i];
        var secret: Option<Manifest> := None;
        if se.name in inp.secrets {
          secret := Some(Secret(inp.hostingNamespace, se.name, inp.secrets[se.name]));
        }
        if secret == None {
          secret := GetManifestPayloadSecretByName(stored, se.name);
          if secret == None && inp.configure && se.generable {
            secret := Some(Secret(inp.hostingNamespace, se.name, inp.generated));
          }
        }
        assert secret == ResolveSecret(inp, stored, se);
        if secret == None {
          allErr := allErr + [se.name];
          continue;
        }
        payload := payload + [secret.value];
      }
      assert secretRefs[..|secretRefs|] == secretRefs;
    }

    method AppendConfigMaps(inp: Inputs, names: seq<string>)
      modifies this
      ensures payload == old(payload) + ResolvedConfigMaps(inp, names)
      ensures allErr == old(allErr) <==> forall n | n in names :: n in inp.configMaps
      ensures |allErr| >= |old(allErr)|
    {
      ghost var base := payload;
      for i := 0 to |names|
        invariant payload == base + ResolvedConfigMaps(inp, names[..i])
        invariant |allErr| >= |old(allErr)|
        invariant |allErr| == |old(allErr)| ==> allErr == old(allErr)
        invariant |allErr| == |old(allErr)| <==> forall n | n in names[..i] :: n in inp.configMaps
      {
        assert names[..i + 1] == names[..i] + [names[i]];
        assert names[..i + 1][..i] == names[..i];
        if names[i] !in inp.configMaps {
          allErr := allErr + [names[i]];
          continue;
        }
        payload := payload + [ConfigMap(inp.hostingNamespace, names[i])];
      }
      assert names[..|names|] == names;
    }

    method CollectEncryptionRefs(encryption: Option<SecretEncryption>) returns (refs: seq<SecretRef>)
      ensures refs == EncryptionRefs(encryption)
    {
      refs := [];
      if encryption.Some? {
        var encr := encryption.value;
        if encr.etype == AescbcType && encr.aescbc.Some? {
          if |encr.aescbc.value.activeKey| != 0 {
            refs := refs + [SecretRef(encr.aescbc.value.activeKey, true)];
          }
          if encr.aescbc.value.backupKey.Some? && |encr.aescbc.value.backupKey.value| != 0 {
            refs := refs + [SecretRef(encr.aescbc.value.backupKey.value, false)];
          }
        }
        if encr.etype == KmsType && encr.kmsAwsAuth.Some? && |encr.kmsAwsAuth.value| != 0 {
          refs := refs + [SecretRef(encr.kmsAwsAuth.value, false)];
        }
      }
    }

    method CollectCredentialRefs(inp: Inputs, hc: HostedClusterSpec) returns (refs: seq<SecretRef>)
      ensures refs == CredentialRefs(ByReference(inp), hc)
    {
      refs := [];
      if !inp.configure && |inp.clusterRef| != 0 && hc.aws.Some? {
        var aws := hc.aws.value;
        if |aws.controlPlaneOperatorCreds| != 0 {
          refs := refs + [SecretRef(aws.controlPlaneOperatorCreds, false)];
        }
        if |aws.kubeCloudControllerCreds| != 0 {
          refs := refs + [SecretRef(aws.kubeCloudControllerCreds, false)];
        }
        if |aws.nodePoolManagementCreds| != 0 {
          refs := refs + [SecretRef(aws.nodePoolManagementCreds, false)];
        }
      }
    }

    /** The collection phase of ensureConfiguration: one append per reference that is set. */
    method CollectSecretRefs(inp: Inputs, hc: HostedClusterSpec) returns (secretRefs: seq<SecretRef>)
      ensures secretRefs == SecretRefs(ByReference(inp), hc)
    {
      secretRefs := [];
      if hc.configuration.Some? {
        var names := hc.configuration.value.secretRefs;
        for i := 0 to |names|
          invariant secretRefs == PlainRefs(names)[..i]
        {
          secretRefs := secretRefs + [SecretRef(names[i], false)];
        }
      }
      var encryption := CollectEncryptionRefs(hc.encryption);
      secretRefs := secretRefs + encryption;
      if hc.serviceAccountSigningKey.Some? && |hc.serviceAccountSigningKey.value| != 0 {
        secretRefs := secretRefs + [SecretRef(hc.serviceAccountSigningKey.value, false)];
      }
      var credentials := CollectCredentialRefs(inp, hc);
      secretRefs := secretRefs + credentials;
    }

    method CollectConfigMapRefs(hc: HostedClusterSpec, pools: seq<NodePoolSpec>) returns (names: seq<string>)
      ensures names == ConfigMapRefs(hc, pools)
    {
      names := [];
      if hc.configuration.Some? {
        names := names + hc.configuration.value.configMapRefs;
      }
      if hc.additionalTrustBundle.Some? && |hc.additionalTrustBundle.value| != 0 {
        names := names + [hc.additionalTrustBundle.value];
      }
      ghost var base := names;
      for i := 0 to |pools|
        invariant names == base + PoolConfigs(pools[..i])
      {
        assert pools[..i + 1][..i] == pools[..i];
        if |pools[i].config| != 0 {
          names := names + pools[i].config;
        }
      }
      assert pools[..|pools|] == pools;
    }

    /** ensureConfiguration: collect, resolve, and fail after the loops if anything was left unresolved. */
    method EnsureConfiguration(inp: Inputs, stored: seq<Manifest>) returns (ok: bool)
      requires ClusterIndex(payload) < |payload| && allErr == []
      modifies this
      ensures var hc := old(payload)[ClusterIndex(old(payload))].spec;
              var names := ConfigMapRefs(hc, PoolSpecsIn(old(payload)));
              && (ok <==> AllResolve(inp, stored, SecretRefs(ByReference(inp), hc)) && forall n | n in names :: n in inp.configMaps)
              && payload == old(payload) + ResolvedSecrets(inp, stored, SecretRefs(ByReference(inp), hc))
                            + ResolvedConfigMaps(inp, names)
    {
      var at := FindCluster();
      var hc := payload[at].spec;
      var secretRefs := CollectSecretRefs(inp, hc);
      var pools := NodePoolsInPayload();
      var names := CollectConfigMapRefs(hc, pools);
      AppendSecrets(inp, stored, secretRefs);
      AppendConfigMaps(inp, names);
      ok := |allErr| == 0;
    }

    /** The first four loaders; a loader that fails ends the reconcile. */
    method AssembleHead(inp: Inputs) returns (ok: bool)
      requires payload == []
      modifies this`payload
      ensures ok <==> ChosenCluster(inp).Some? && PoolsReadable(inp)
                      && ReferenceSecrets(inp, ChosenCluster(inp).value).Some?
      ensures ok ==> payload == Head(inp)
    {
      EnsureTargetNamespace(inp);
      ok := AppendHostedCluster(inp);
      if !ok {
        return;
      }
      ghost var two := payload;
      ok := AppendNodePools(inp);
      if !ok {
        return;
      }
      assert payload == two + PoolManifests(inp, ChosenPools(inp));
      assert payload[1..][0] == two[1];
      ok := AppendReferenceSecrets(inp);
    }

    /** The loader list of createOrUpdateMainfestwork. */
    method Assemble(inp: Inputs, stored: seq<Manifest>) returns (ok: bool)
      requires payload == [] && allErr == []
      modifies this
      ensures ok == Assembles(inp, stored)
      ensures ok ==> payload == Assembled(inp, stored)
    {
      ok := AssembleHead(inp);
      if !ok {
        return;
      }
      HeadReadsBack(inp);
      ReferencesIgnoreSshKey(inp, ChosenCluster(inp).value);
      ok := EnsureConfiguration(inp, stored);
    }
  }

  /** The SSH key written into the manifest changes none of the references read from it afterwards. */
  lemma ReferencesIgnoreSshKey(inp: Inputs, hc: HostedClusterSpec)
    ensures SecretRefs(ByReference(inp), WithSshKey(inp, hc)) == SecretRefs(ByReference(inp), hc)
    ensures forall pools: seq<NodePoolSpec> :: ConfigMapRefs(WithSshKey(inp, hc), pools) == ConfigMapRefs(hc, pools)
  {
  }

  // ---- the payload a work holds between reconciles ---------------------------------------------------

  predicate HasSecret(payload: seq<Manifest>, namespace: string, name: string) {
    exists m :: m in payload && m.Secret? && m.namespace == namespace && m.name == name
  }

  /** One namespace, one hosted cluster, everything in the hosting namespace. */
  predicate Structured(ns: string, payload: seq<Manifest>) {
    && |payload| >= 2
    && payload[0] == Namespace(ns)
    && payload[1].HostedClusterObj?
    && (forall i | 1 <= i < |payload| :: !payload[i].Namespace?)
    && (forall i | 2 <= i < |payload| :: !payload[i].HostedClusterObj?)
    && (forall m | m in payload :: !m.Namespace? ==> m.namespace == ns)
  }

  /** The pull secret, the SSH key and, without AWS, the Azure credentials a hosted cluster names. */
  predicate HasNamedSecrets(ns: string, hc: HostedClusterSpec, payload: seq<Manifest>) {
    && (hc.pullSecret != "" ==> HasSecret(payload, ns, hc.pullSecret))
    && (hc.sshKey != "" ==> HasSecret(payload, ns, hc.sshKey))
    && (hc.aws.None? && hc.azureCredentials.Some? ==> HasSecret(payload, ns, hc.azureCredentials.value))
  }

  /**
   Every secret and config map the manifests refer to is in the payload. On Azure the secrets the cluster
   names may be missing: a provider secret that does not parse drops them.
   */
  predicate Closed(ns: string, byReference: bool, payload: seq<Manifest>)
    requires Structured(ns, payload)
  {
    var hc := payload[1].spec;
    && (hc.aws.Some? || hc.azureCredentials.None? ==> HasNamedSecrets(ns, hc, payload))
    && (forall ref | ref in SecretRefs(byReference, hc) :: HasSecret(payload, ns, ref.name))
    && (forall n | n in ConfigMapRefs(hc, PoolSpecsIn(payload)) :: ConfigMap(ns, n) in payload)
  }

  predicate WellFormed(ns: string, byReference: bool, payload: seq<Manifest>) {
    Structured(ns, payload) && Closed(ns, byReference, payload)
  }

  predicate SecretsIn(ns: string, payload: seq<Manifest>) {
    forall m | m in payload && m.Secret? :: m.namespace == ns
  }

  /** A resolved secret carries the referenced name, in the hosting namespace. */
  lemma ResolvedSecretIsNamed(inp: Inputs, stored: seq<Manifest>, ref: SecretRef)
    requires SecretsIn(inp.hostingNamespace, stored)
    requires ResolveSecret(inp, stored, ref).Some?
    ensures var m := ResolveSecret(inp, stored, ref).value;
            m.Secret? && m.name == ref.name && m.namespace == inp.hostingNamespace
  {
    if FindSecret(stored, ref.name).Some? {
      FoundSecretIsThere(stored, ref.name);
    }
  }

  lemma {:induction false} ResolvedSecretsMembers(inp: Inputs, stored: seq<Manifest>, refs: seq<SecretRef>)
    requires SecretsIn(inp.hostingNamespace, stored)
    ensures forall m | m in ResolvedSecrets(inp, stored, refs) ::
              m.Secret? && m.namespace == inp.hostingNamespace
    ensures forall m | m in ResolvedSecrets(inp, stored, refs) ::
              exists ref :: ref in refs && m.Secret? && ref.name == m.name && ResolveSecret(inp, stored, ref) == Some(m)
    ensures forall ref | ref in refs && ResolveSecret(inp, stored, ref).Some? ::
              ResolveSecret(inp, stored, ref).value in ResolvedSecrets(inp, stored, refs)
  {
    if refs != [] {
      var n := |refs| - 1;
      assert refs == refs[..n] + [refs[n]];
      ResolvedSecretsMembers(inp, stored, refs[..n]);
      if ResolveSecret(inp, stored, refs[n]).Some? {
        ResolvedSecretIsNamed(inp, stored, refs[n]);
      }
    }
  }

  lemma {:induction false} ResolvedConfigMapsMembers(inp: Inputs, names: seq<string>)
    ensures forall m | m in ResolvedConfigMaps(inp, names) :: m.ConfigMap? && m.namespace == inp.hostingNamespace
    ensures forall n | n in names && n in inp.configMaps ::
              ConfigMap(inp.hostingNamespace, n) in ResolvedConfigMaps(inp, names)
  {
    if names != [] {
      var k := |names| - 1;
      assert names == names[..k] + [names[k]];
      ResolvedConfigMapsMembers(inp, names[..k]);
    }
  }

  lemma HeadIsStructured(inp: Inputs)
    requires ChosenCluster(inp).Some? && PoolsReadable(inp)
    requires ReferenceSecrets(inp, ChosenCluster(inp).value).Some?
    ensures Structured(inp.hostingNamespace, Head(inp))
    ensures forall m | m in Head(inp) && m.Secret? :: m in ReferenceSecrets(inp, ChosenCluster(inp).value).value
  {
    var hc := ChosenCluster(inp).value;
    ReferenceSecretsAreSecrets(inp, hc);
    var two := [Namespace(inp.hostingNamespace), HostedClusterObj(inp.hostingNamespace, inp.name, WithSshKey(inp, hc))];
    var pools, refs := PoolManifests(inp, ChosenPools(inp)), ReferenceSecrets(inp, hc).value;
    assert Structured(inp.hostingNamespace, two);
    assert forall m | m in pools :: m.NodePoolObj?;
    StructuredAppend(inp.hostingNamespace, two, pools);
    StructuredAppend(inp.hostingNamespace, two + pools, refs);
  }

  lemma StructuredAppend(ns: string, front: seq<Manifest>, back: seq<Manifest>)
    requires Structured(ns, front)
    requires forall m | m in back :: !m.Namespace? && !m.HostedClusterObj? && m.namespace == ns
    ensures Structured(ns, front + back)
  {
    var payload := front + back;
    forall i | |front| <= i < |payload| ensures payload[i] in back {
      assert payload[i] == back[i - |front|];
    }
  }

  /** Appending resolved secrets and config maps to a structured head keeps structure and closes the references. */
  lemma TailClosesReferences(
    inp: Inputs, stored: seq<Manifest>, head: seq<Manifest>, refs: seq<SecretRef>, names: seq<string>)
    requires Structured(inp.hostingNamespace, head) && SecretsIn(inp.hostingNamespace, stored)
    requires AllResolve(inp, stored, refs) && forall n | n in names :: n in inp.configMaps
    ensures var payload := head + ResolvedSecrets(inp, stored, refs) + ResolvedConfigMaps(inp, names);
            && Structured(inp.hostingNamespace, payload)
            && payload[1] == head[1]
            && PoolSpecsIn(payload) == PoolSpecsIn(head)
            && (forall ref | ref in refs :: HasSecret(payload, inp.hostingNamespace, ref.name))
            && (forall n | n in names :: ConfigMap(inp.hostingNamespace, n) in payload)
  {
    var secrets, maps := ResolvedSecrets(inp, stored, refs), ResolvedConfigMaps(inp, names);
    var payload := head + secrets + maps;
    ResolvedSecretsMembers(inp, stored, refs);
    ResolvedConfigMapsMembers(inp, names);
    StructuredAppend(inp.hostingNamespace, head, secrets);
    StructuredAppend(inp.hostingNamespace, head + secrets, maps);
    PoolSpecsInOthers(secrets);
    PoolSpecsInOthers(maps);
    PoolSpecsInAppend(head, secrets);
    PoolSpecsInAppend(head + secrets, maps);
    forall ref | ref in refs ensures HasSecret(payload, inp.hostingNamespace, ref.name) {
      ResolvedSecretIsNamed(inp, stored, ref);
      assert ResolveSecret(inp, stored, ref).value in payload;
    }
  }

  lemma HasSecretInPart(ns: string, name: string, part: seq<Manifest>, payload: seq<Manifest>)
    requires HasSecret(part, ns, name) && forall m | m in part :: m in payload
    ensures HasSecret(payload, ns, name)
  {
  }

  lemma ReferenceSecretsAreNamed(inp: Inputs, hc: HostedClusterSpec)
    requires ChosenCluster(inp) == Some(hc) && ReferenceSecrets(inp, hc).Some? && !UnusableAzure(inp, hc)
    ensures HasNamedSecrets(inp.hostingNamespace, WithSshKey(inp, hc), ReferenceSecrets(inp, hc).value)
  {
    var ns, secrets := inp.hostingNamespace, ReferenceSecrets(inp, hc).value;
    if hc.pullSecret != "" {
      assert PullSecret(inp, hc).value[0] in secrets;
    }
    if WithSshKey(inp, hc).sshKey != "" {
      assert SshSecret(inp, hc).value[0] in secrets;
    }
    if hc.aws.None? && hc.azureCredentials.Some? {
      assert CloudSecrets(inp, hc)[0] in secrets;
    }
  }

  /** Unless Azure credentials do not parse, every secret the hosted cluster names is in the payload. */
  lemma NamedSecretsArePresent(inp: Inputs, stored: seq<Manifest>)
    requires Assembles(inp, stored) && !UnusableAzure(inp, ChosenCluster(inp).value)
    ensures HasNamedSecrets(
              inp.hostingNamespace, WithSshKey(inp, ChosenCluster(inp).value), Assembled(inp, stored))
  {
    var hc := ChosenCluster(inp).value;
    var part, payload := ReferenceSecrets(inp, hc).value, Assembled(inp, stored);
    ReferenceSecretsAreNamed(inp, hc);
    assert forall m | m in part :: m in Head(inp);
    assert forall m | m in Head(inp) :: m in payload;
    forall name | HasSecret(part, inp.hostingNamespace, name) ensures HasSecret(payload, inp.hostingNamespace, name) {
      HasSecretInPart(inp.hostingNamespace, name, part, payload);
    }
  }

  /**
   The pull secret is dropped, without an error, exactly when Azure credentials do not parse and no other
   reference of the cluster goes by its name.
   */
  lemma PullSecretIsDroppedIff(inp: Inputs, stored: seq<Manifest>)
    requires Assembles(inp, stored) && SecretsIn(inp.hostingNamespace, stored)
    requires ChosenCluster(inp).value.pullSecret != ""
    ensures !HasSecret(Assembled(inp, stored), inp.hostingNamespace, ChosenCluster(inp).value.pullSecret)
       <==> && UnusableAzure(inp, ChosenCluster(inp).value)
            && !NamesSecret(ByReference(inp), ChosenCluster(inp).value, ChosenCluster(inp).value.pullSecret)
  {
    var hc := ChosenCluster(inp).value;
    NamesSecretIff(ByReference(inp), hc, hc.pullSecret);
    if UnusableAzure(inp, hc) {
      SecretsBehindEmptyHead(inp, stored, hc.pullSecret);
    } else {
      NamedSecretsArePresent(inp, stored);
    }
  }

  /** Without reference secrets, the payload has just the secrets that the references resolve to. */
  lemma SecretsBehindEmptyHead(inp: Inputs, stored: seq<Manifest>, name: string)
    requires Assembles(inp, stored) && SecretsIn(inp.hostingNamespace, stored)
    requires UnusableAzure(inp, ChosenCluster(inp).value)
    ensures HasSecret(Assembled(inp, stored), inp.hostingNamespace, name)
       <==> exists ref :: ref in SecretRefs(ByReference(inp), ChosenCluster(inp).value) && ref.name == name
  {
    var hc := ChosenCluster(inp).value;
    var refs, names := SecretRefs(ByReference(inp), hc), ConfigMapRefs(hc, PoolSpecs(ChosenPools(inp)));
    var secrets, payload := ResolvedSecrets(inp, stored, refs), Assembled(inp, stored);
    ResolvedSecretsMembers(inp, stored, refs);
    ResolvedConfigMapsMembers(inp, names);
    HeadIsStructured(inp);
    assert forall m | m in payload && m.Secret? :: m in secrets;
    if ref :| ref in refs && ref.name == name {
      ResolvedSecretIsNamed(inp, stored, ref);
      assert ResolveSecret(inp, stored, ref).value in payload;
    }
  }

  /** What an assembly that succeeds writes is well formed, given that the secrets it may reuse are in the namespace. */
  lemma AssembledIsWellFormed(inp: Inputs, stored: seq<Manifest>)
    requires Assembles(inp, stored)
    requires SecretsIn(inp.hostingNamespace, stored)
    ensures WellFormed(inp.hostingNamespace, ByReference(inp), Assembled(inp, stored))
    ensures Assembled(inp, stored)[1]
         == HostedClusterObj(inp.hostingNamespace, inp.name, WithSshKey(inp, ChosenCluster(inp).value))
    ensures PoolSpecsIn(Assembled(inp, stored)) == PoolSpecs(ChosenPools(inp))
  {
    var hc := ChosenCluster(inp).value;
    HeadIsStructured(inp);
    HeadReadsBack(inp);
    ReferencesIgnoreSshKey(inp, hc);
    if !UnusableAzure(inp, hc) {
      NamedSecretsArePresent(inp, stored);
    }
    TailClosesReferences(
      inp, stored, Head(inp), SecretRefs(ByReference(inp), hc), ConfigMapRefs(hc, PoolSpecs(ChosenPools(inp))));
  }

  // ---- rounds of reconciling ---------------------------------------------------------------------

  /**
   One create-or-update reconcile: `seen` if its read of the stored work succeeded, `written` if the
   final write did.
   */
  datatype Round = Round(inputs: Inputs, seen: bool, written: bool)

  function View(stored: Option<seq<Manifest>>, seen: bool): seq<Manifest> {
    if seen && stored.Some? then stored.value else []
  }

  function AfterRound(stored: Option<seq<Manifest>>, r: Round): Option<seq<Manifest>> {
    if Assembles(r.inputs, View(stored, r.seen)) && r.written
    then Some(Assembled(r.inputs, View(stored, r.seen)))
    else stored
  }

  function AfterRounds(stored: Option<seq<Manifest>>, rounds: seq<Round>): Option<seq<Manifest>> {
    if rounds == [] then stored
    else AfterRound(AfterRounds(stored, rounds[..|rounds| - 1]), rounds[|rounds| - 1])
  }

  lemma RoundKeepsWellFormed(stored: Option<seq<Manifest>>, r: Round)
    requires var ns, byRef := r.inputs.hostingNamespace, ByReference(r.inputs);
             stored.Some? ==> WellFormed(ns, byRef, stored.value)
    ensures AfterRound(stored, r).Some? ==>
              WellFormed(r.inputs.hostingNamespace, ByReference(r.inputs), AfterRound(stored, r).value)
  {
    var view := View(stored, r.seen);
    assert SecretsIn(r.inputs.hostingNamespace, view);
    if Assembles(r.inputs, view) {
      AssembledIsWellFormed(r.inputs, view);
    }
  }

  /** The stored payload is well formed after any number of reconciles, whatever failed in them. */
  lemma {:induction false} StoredPayloadIsAlwaysWellFormed(ns: string, byReference: bool, rounds: seq<Round>)
    requires forall i | 0 <= i < |rounds| ::
               rounds[i].inputs.hostingNamespace == ns && ByReference(rounds[i].inputs) == byReference
    ensures AfterRounds(None, rounds).Some? ==> WellFormed(ns, byReference, AfterRounds(None, rounds).value)
  {
    if rounds != [] {
      var before, last := rounds[..|rounds| - 1], rounds[|rounds| - 1];
      StoredPayloadIsAlwaysWellFormed(ns, byReference, before);
      RoundKeepsWellFormed(AfterRounds(None, before), last);
    }
  }

  // ---- the etcd encryption key -------------------------------------------------------------------

  /** `name` is the AESCBC active key, and no pull, cloud or SSH secret goes by the same name. */
  predicate DeclaresKey(inp: Inputs, name: string) {
    && ChosenCluster(inp).Some?
    && IsActiveKey(ChosenCluster(inp).value, name)
    && (ReferenceSecrets(inp, ChosenCluster(inp).value).Some? ==>
          forall m | m in ReferenceSecrets(inp, ChosenCluster(inp).value).value :: m.Secret? ==> m.name != name)
  }

  lemma {:induction false} OnlySecretOfThatName(payload: seq<Manifest>, m: Manifest)
    requires m.Secret? && m in payload
    requires forall o | o in payload :: o.Secret? && o.name == m.name ==> o == m
    ensures FindSecret(payload, m.name) == Some(m)
  {
    if payload[0] != m {
      assert forall o | o in payload[1..] :: o in payload;
      OnlySecretOfThatName(payload[1..], m);
    }
  }

  /** Among the resolved secrets, the first of a referenced name is the one the resolution order picks. */
  lemma ResolvedKey(inp: Inputs, stored: seq<Manifest>, refs: seq<SecretRef>, maps: seq<Manifest>, ref: SecretRef)
    requires SecretsIn(inp.hostingNamespace, stored) && AllResolve(inp, stored, refs)
    requires ref in refs && ref.generable
    requires forall m | m in maps :: !m.Secret?
    ensures FindSecret(ResolvedSecrets(inp, stored, refs) + maps, ref.name) == ResolveSecret(inp, stored, ref)
  {
    var secrets := ResolvedSecrets(inp, stored, refs);
    var m := ResolveSecret(inp, stored, ref).value;
    ResolvedSecretsMembers(inp, stored, refs);
    ResolvedSecretIsNamed(inp, stored, ref);
    forall o: Manifest | o in secrets + maps && o.Secret? && o.name == ref.name ensures o == m {
      assert o in secrets;
      var r :| r in refs && r.name == o.name && ResolveSecret(inp, stored, r) == Some(o);
      assert ResolveSecret(inp, stored, r).Some?;
    }
    OnlySecretOfThatName(secrets + maps, m);
  }

  lemma KeyBehindHead(
    inp: Inputs, stored: seq<Manifest>, head: seq<Manifest>, refs: seq<SecretRef>, names: seq<string>, ref: SecretRef)
    requires SecretsIn(inp.hostingNamespace, stored) && AllResolve(inp, stored, refs)
    requires ref in refs && ref.generable
    requires forall m | m in head :: m.Secret? ==> m.name != ref.name
    ensures FindSecret(head + ResolvedSecrets(inp, stored, refs) + ResolvedConfigMaps(inp, names), ref.name)
         == ResolveSecret(inp, stored, ref)
  {
    var secrets, maps := ResolvedSecrets(inp, stored, refs), ResolvedConfigMaps(inp, names);
    ResolvedConfigMapsMembers(inp, names);
    ResolvedKey(inp, stored, refs, maps, ref);
    FindSecretSkips(head, secrets + maps, ref.name);
    assert head + secrets + maps == head + (secrets + maps);
  }

  /** The secret a reconcile writes under a key's name: the user's, else the stored one, else a fresh one. */
  lemma WrittenKey(inp: Inputs, stored: seq<Manifest>, name: string)
    requires Assembles(inp, stored) && SecretsIn(inp.hostingNamespace, stored)
    requires DeclaresKey(inp, name)
    ensures name in inp.secrets ==>
              FindSecret(Assembled(inp, stored), name) == Some(Secret(inp.hostingNamespace, name, inp.secrets[name]))
    ensures name !in inp.secrets && FindSecret(stored, name).Some? ==>
              FindSecret(Assembled(inp, stored), name) == FindSecret(stored, name)
    ensures name !in inp.secrets && FindSecret(stored, name).None? ==>
              inp.configure && FindSecret(Assembled(inp, stored), name) == Some(Secret(inp.hostingNamespace, name, inp.generated))
  {
    var hc, ref := ChosenCluster(inp).value, SecretRef(name, true);
    HeadIsStructured(inp);
    SecretRefsIff(ByReference(inp), hc, ref);
    KeyBehindHead(inp, stored, Head(inp), SecretRefs(ByReference(inp), hc),
                  ConfigMapRefs(hc, PoolSpecs(ChosenPools(inp))), ref);
    assert ResolveSecret(inp, stored, ref).Some?;
  }

  /** A reconcile that can read the work, whose user supplies no secret of the key's name. */
  predicate KeepsKey(ns: string, byReference: bool, r: Round, name: string) {
    && r.inputs.hostingNamespace == ns && ByReference(r.inputs) == byReference
    && r.seen && name !in r.inputs.secrets && DeclaresKey(r.inputs, name)
  }

  lemma RoundKeepsKey(ns: string, byReference: bool, stored: seq<Manifest>, r: Round, name: string)
    requires FindSecret(stored, name).Some? && SecretsIn(ns, stored) && KeepsKey(ns, byReference, r, name)
    ensures var after := AfterRound(Some(stored), r);
            after.Some? && SecretsIn(ns, after.value) && FindSecret(after.value, name) == FindSecret(stored, name)
  {
    if Assembles(r.inputs, stored) {
      WrittenKey(r.inputs, stored, name);
      AssembledSecretsIn(r.inputs, stored);
    }
  }

  lemma AssembledSecretsIn(inp: Inputs, stored: seq<Manifest>)
    requires Assembles(inp, stored) && SecretsIn(inp.hostingNamespace, stored)
    ensures SecretsIn(inp.hostingNamespace, Assembled(inp, stored))
  {
    AssembledIsWellFormed(inp, stored);
  }

  /**
   Once stored, the encryption key reappears with identical data after every later reconcile, as long
   as the user supplies no secret of that name and the stored work can be read.
   */
  lemma {:induction false} EncryptionKeyIsStable(
    ns: string, byReference: bool, stored: seq<Manifest>, name: string, rounds: seq<Round>)
    requires FindSecret(stored, name).Some? && SecretsIn(ns, stored)
    requires forall i | 0 <= i < |rounds| :: KeepsKey(ns, byReference, rounds[i], name)
    ensures var after := AfterRounds(Some(stored), rounds);
            after.Some? && SecretsIn(ns, after.value) && FindSecret(after.value, name) == FindSecret(stored, name)
  {
    if rounds != [] {
      var before, last := rounds[..|rounds| - 1], rounds[|rounds| - 1];
      EncryptionKeyIsStable(ns, byReference, stored, name, before);
      RoundKeepsKey(ns, byReference, AfterRounds(Some(stored), before).value, last, name);
    }
  }

  /**
   The condition on the read is exact. A reconcile that configures the cluster and succeeds keeps the
   stored key if and only if it could read the stored work, or the generator happened to repeat it.
   */
  lemma KeySurvivesIffWorkWasRead(inp: Inputs, stored: seq<Manifest>, seen: bool, name: string)
    requires SecretsIn(inp.hostingNamespace, stored)
    requires FindSecret(stored, name).Some? && inp.configure && name !in inp.secrets
    requires DeclaresKey(inp, name) && Assembles(inp, View(Some(stored), seen))
    ensures FindSecret(AfterRound(Some(stored), Round(inp, seen, true)).value, name) == FindSecret(stored, name)
       <==> seen || FindSecret(stored, name).value == Secret(inp.hostingNamespace, name, inp.generated)
  {
    WrittenKey(inp, View(Some(stored), seen), name);
  }
}
