/**
 Completion of a HypershiftDeployment's specs from the output of the AWS infrastructure creator:
 the hosted cluster spec and the node pools, and the check made before a ManifestWork is written.
 */
module Scaffold {
  import opened Wrappers
  import opened Api

  const RELEASE_IMAGE := "quay.io/openshift-release-dev/ocp-release:4.11.2-x86_64"
  const POD_CIDR := "10.132.0.0/14"
  const SERVICE_CIDR := "172.31.0.0/16"
  const MANAGEMENT_CATALOG := "management"
  const DEFAULT_SERVICES: seq<Service> := [
    Service("APIServer", "LoadBalancer"),
    Service("OAuthServer", "Route"),
    Service("Konnectivity", "Route"),
    Service("Ignition", "Route")]
  const NO_ROLES := RolesRef("", "", "", "", "", "", "")

  predicate OccursAt(s: string, sub: string, i: int) {
    0 <= i <= |s| - |sub| && s[i..i + |sub|] == sub
  }

  predicate Contains(s: string, sub: string) {
    exists i | 0 <= i <= |s| :: OccursAt(s, sub, i)
  }

  function OrElse(value: string, default: string): string {
    if value == "" then default else value
  }

  // ---- the hosted cluster spec -------------------------------------------------------------------

  /** The spec built when the user gave none. */
  function FreshSpec(name: string, infraID: string, uuid: string): HostedClusterSpec {
    HostedClusterSpec(
      infraID, uuid, "", MANAGEMENT_CATALOG, RELEASE_IMAGE, name + "-pull-secret", "",
      Networking(SERVICE_CIDR, POD_CIDR, "", OVNKubernetes), Dns("", "", ""), Some([]),
      None, None, None, None, NonePlatform, None, None)
  }

  function EtcdEncryption(name: string): SecretEncryption {
    SecretEncryption(AescbcType, Some(Aescbc(name + "-etcd-encryption-key", None)), None)
  }

  /** scaffoldHostedClusterSpec: defaults that do not depend on the platform. */
  method ScaffoldHostedClusterSpec(hyd: Deployment, uuid: string)
    modifies hyd`hostedCluster
    ensures hyd.hostedCluster == Some(WithDefaults(
                                        old(hyd.hostedCluster), hyd.name, hyd.infraID, hyd.configure, uuid))
  {
    var spec: HostedClusterSpec;
    if hyd.hostedCluster == None {
      spec := FreshSpec(hyd.name, hyd.infraID, uuid);
    } else {
      spec := hyd.hostedCluster.value;
    }
    if spec.services == Some([]) {
      spec := spec.(services := Some(DEFAULT_SERVICES));
    }
    if spec.pullSecret == "" {
      spec := spec.(pullSecret := hyd.name + "-pull-secret");
    }
    if spec.networking.podCIDR == "" {
      spec := spec.(networking := spec.networking.(podCIDR := POD_CIDR));
    }
    if spec.networking.serviceCIDR == "" {
      spec := spec.(networking := spec.networking.(serviceCIDR := SERVICE_CIDR));
    }
    if spec.encryption == None && hyd.configure {
      spec := spec.(encryption := Some(EtcdEncryption(hyd.name)));
    }
    if spec.networking.networkType == OVNKubernetes && Contains(spec.releaseImage, ":4.10.") {
      spec := spec.(networking := spec.networking.(networkType := OpenShiftSDN));
    }
    hyd.hostedCluster := Some(spec);
  }

  function WithDefaults(
    given: Option<HostedClusterSpec>, name: string, infraID: string, configure: bool, uuid: string): HostedClusterSpec
  {
    var spec := if given.Some? then given.value else FreshSpec(name, infraID, uuid);
    var net := spec.networking;
    spec.(services := if spec.services == Some([]) then Some(DEFAULT_SERVICES) else spec.services,
          pullSecret := OrElse(spec.pullSecret, name + "-pull-secret"),
          networking := Networking(
            OrElse(net.serviceCIDR, SERVICE_CIDR),
            OrElse(net.podCIDR, POD_CIDR),
            net.machineCIDR,
            if net.networkType == OVNKubernetes && Contains(spec.releaseImage, ":4.10.") then OpenShiftSDN
            else net.networkType),
          encryption := if spec.encryption == None && configure then Some(EtcdEncryption(name)) else spec.encryption)
  }

  function OwnedTag(infraID: string): Tag {
    Tag("kubernetes.io/cluster/" + infraID, "owned")
  }

  const NO_AWS := AwsPlatform("", [], None, NO_ROLES, None, "", "", "")

  /** The AWS part of the spec after one call. */
  function WithAws(
    given: HostedClusterSpec, infraID: string, region: string, out: InfraOutput): HostedClusterSpec
    requires out.zones != []
  {
    var aws := if given.aws.Some? then given.aws.value else NO_AWS;
    given.(dns := Dns(out.baseDomain, out.privateZoneID, out.publicZoneID),
           infraID := infraID,
           networking := given.networking.(machineCIDR := out.machineCIDR),
           aws := Some(aws.(
                   region := OrElse(aws.region, region),
                   resourceTags := aws.resourceTags + [OwnedTag(infraID)],
                   cloudProvider := Some(CloudProviderConfig(out.zones[0].subnetID, out.vpcID, out.zones[0].name)))),
           platformType := AwsType)
  }

  function AwsScaffold(
    given: Option<HostedClusterSpec>, name: string, infraID: string, configure: bool, region: string,
    out: InfraOutput, uuid: string): HostedClusterSpec
    requires out.zones != []
  {
    WithAws(WithDefaults(given, name, infraID, configure, uuid), infraID, region, out)
  }

  /** ScaffoldAWSHostedClusterSpec; the creator always returns at least one zone. */
  method ScaffoldAWSHostedClusterSpec(hyd: Deployment, out: InfraOutput, uuid: string)
    requires out.zones != []
    modifies hyd`hostedCluster
    ensures hyd.hostedCluster == Some(AwsScaffold(
                                        old(hyd.hostedCluster), hyd.name, hyd.infraID, hyd.configure, hyd.awsRegion,
                                        out, uuid))
  {
    ScaffoldHostedClusterSpec(hyd, uuid);
    var spec := hyd.hostedCluster.value;
    spec := spec.(dns := Dns(out.baseDomain, out.privateZoneID, out.publicZoneID));
    spec := spec.(infraID := hyd.infraID);
    spec := spec.(networking := spec.networking.(machineCIDR := out.machineCIDR));
    if spec.aws == None {
      spec := spec.(aws := Some(NO_AWS));
    }
    var aws := spec.aws.value;
    if aws.region == "" {
      aws := aws.(region := hyd.awsRegion);
    }
    aws := aws.(resourceTags := aws.resourceTags + [OwnedTag(spec.infraID)]);
    aws := aws.(cloudProvider := Some(CloudProviderConfig(out.zones[0].subnetID, out.vpcID, out.zones[0].name)));
    spec := spec.(aws := Some(aws));
    spec := spec.(platformType := AwsType);
    if spec.networking.podCIDR == "" {
      spec := spec.(networking := spec.networking.(podCIDR := POD_CIDR));
    }
    if spec.networking.serviceCIDR == "" {
      spec := spec.(networking := spec.networking.(serviceCIDR := SERVICE_CIDR));
    }
    hyd.hostedCluster := Some(spec);
  }

  /** The next call, on the spec the previous one left; only a first call can use the fresh uuid. */
  function NextCall(name: string, infraID: string, configure: bool, region: string, out: InfraOutput)
    : (HostedClusterSpec, string) -> HostedClusterSpec
    requires out.zones != []
  {
    (spec, uuid) => AwsScaffold(Some(spec), name, infraID, configure, region, out, uuid)
  }

  function Repeated(next: (HostedClusterSpec, string) -> HostedClusterSpec, first: HostedClusterSpec, uuids: seq<string>)
    : HostedClusterSpec
  {
    if uuids == [] then first
    else next(Repeated(next, first, uuids[..|uuids| - 1]), uuids[|uuids| - 1])
  }

  function Copies(tag: Tag, k: nat): seq<Tag> {
    if k == 0 then [] else Copies(tag, k - 1) + [tag]
  }

  function WithExtraTags(spec: HostedClusterSpec, tags: seq<Tag>): HostedClusterSpec {
    if spec.aws.None? then spec
    else spec.(aws := Some(spec.aws.value.(resourceTags := spec.aws.value.resourceTags + tags)))
  }

  /** Defaults are stable once applied, and the platform part never disturbs them. */
  lemma DefaultsAreStable(spec: HostedClusterSpec, name: string, infraID: string, configure: bool, uuid: string)
    requires spec.services != Some([])
    requires spec.pullSecret != "" && spec.networking.podCIDR != "" && spec.networking.serviceCIDR != ""
    requires configure ==> spec.encryption.Some?
    requires spec.networking.networkType != OVNKubernetes || !Contains(spec.releaseImage, ":4.10.")
    ensures WithDefaults(Some(spec), name, infraID, configure, uuid) == spec
  {
  }

  /** One more call on a spec that differs from a first call's result only by tags adds just a tag. */
  lemma OneMoreCall(
    given: Option<HostedClusterSpec>, name: string, infraID: string, configure: bool, region: string,
    out: InfraOutput, uuid: string, uuid': string, tags: seq<Tag>)
    requires out.zones != []
    ensures var first := AwsScaffold(given, name, infraID, configure, region, out, uuid);
            first.aws.Some? && AwsScaffold(Some(WithExtraTags(first, tags)), name, infraID, configure, region, out, uuid')
                               == WithExtraTags(first, tags + [OwnedTag(infraID)])
  {
    var first := AwsScaffold(given, name, infraID, configure, region, out, uuid);
    var before := WithExtraTags(first, tags);
    NonEmptyDefaults(given, name, infraID, configure, uuid);
    DefaultsAreStable(before, name, infraID, configure, uuid');
    assert first.aws.value.resourceTags + tags + [OwnedTag(infraID)]
        == first.aws.value.resourceTags + (tags + [OwnedTag(infraID)]);
  }

  ghost predicate AddsOneTag(next: (HostedClusterSpec, string) -> HostedClusterSpec, first: HostedClusterSpec, tag: Tag) {
    forall tags, uuid :: next(WithExtraTags(first, tags), uuid) == WithExtraTags(first, tags + [tag])
  }

  lemma {:induction false} TagsAddUp(
    next: (HostedClusterSpec, string) -> HostedClusterSpec, first: HostedClusterSpec, tag: Tag, uuids: seq<string>)
    requires AddsOneTag(next, first, tag)
    ensures Repeated(next, first, uuids) == WithExtraTags(first, Copies(tag, |uuids|))
  {
    if uuids == [] {
      assert first.aws.Some? ==> first.aws.value.resourceTags + [] == first.aws.value.resourceTags;
    } else {
      TagsAddUp(next, first, tag, uuids[..|uuids| - 1]);
    }
  }

  /**
   Calling the scaffold any number of times more changes nothing except that every call leaves one more
   copy of the owned tag behind.
   */
  lemma RepeatedScaffoldAddsOneTagPerCall(
    given: Option<HostedClusterSpec>, name: string, infraID: string, configure: bool, region: string,
    out: InfraOutput, uuid: string, uuids: seq<string>)
    requires out.zones != []
    ensures var first := AwsScaffold(given, name, infraID, configure, region, out, uuid);
            && first.aws.Some?
            && Repeated(NextCall(name, infraID, configure, region, out), first, uuids)
               == WithExtraTags(first, Copies(OwnedTag(infraID), |uuids|))
  {
    var first := AwsScaffold(given, name, infraID, configure, region, out, uuid);
    var next := NextCall(name, infraID, configure, region, out);
    forall tags, uuid' ensures next(WithExtraTags(first, tags), uuid') == WithExtraTags(first, tags + [OwnedTag(infraID)]) {
      OneMoreCall(given, name, infraID, configure, region, out, uuid, uuid', tags);
    }
    TagsAddUp(next, first, OwnedTag(infraID), uuids);
  }

  lemma NonEmptyDefaults(given: Option<HostedClusterSpec>, name: string, infraID: string, configure: bool, uuid: string)
    ensures var spec := WithDefaults(given, name, infraID, configure, uuid);
            && spec.services != Some([])
            && spec.pullSecret != "" && spec.networking.podCIDR != "" && spec.networking.serviceCIDR != ""
            && (configure ==> spec.encryption.Some?)
            && (spec.networking.networkType != OVNKubernetes || !Contains(spec.releaseImage, ":4.10."))
  {
    assert |DEFAULT_SERVICES| == 4;
    assert |name + "-pull-secret"| >= 12;
    assert |POD_CIDR| == 13 && |SERVICE_CIDR| == 13;
  }

  /** What the user set survives: tags come first and unchanged, and every set optional field is kept. */
  lemma UserSettingsSurvive(
    spec: HostedClusterSpec, name: string, infraID: string, configure: bool, region: string,
    out: InfraOutput, uuid: string)
    requires out.zones != []
    ensures var r := AwsScaffold(Some(spec), name, infraID, configure, region, out, uuid);
            && r.clusterID == spec.clusterID && r.releaseImage == spec.releaseImage && r.sshKey == spec.sshKey
            && r.issuerURL == spec.issuerURL && r.olmCatalogPlacement == spec.olmCatalogPlacement
            && r.configuration == spec.configuration && r.additionalTrustBundle == spec.additionalTrustBundle
            && r.serviceAccountSigningKey == spec.serviceAccountSigningKey
            && r.azureCredentials == spec.azureCredentials
            && (spec.pullSecret != "" ==> r.pullSecret == spec.pullSecret)
            && (spec.networking.podCIDR != "" ==> r.networking.podCIDR == spec.networking.podCIDR)
            && (spec.networking.serviceCIDR != "" ==> r.networking.serviceCIDR == spec.networking.serviceCIDR)
            && (spec.services != Some([]) ==> r.services == spec.services)
            && (spec.encryption.Some? ==> r.encryption == spec.encryption)
            && (spec.aws.Some? ==>
                  && spec.aws.value.resourceTags <= r.aws.value.resourceTags
                  && r.aws.value.rolesRef == spec.aws.value.rolesRef && r.aws.value.roles == spec.aws.value.roles
                  && r.aws.value.controlPlaneOperatorCreds == spec.aws.value.controlPlaneOperatorCreds
                  && r.aws.value.kubeCloudControllerCreds == spec.aws.value.kubeCloudControllerCreds
                  && r.aws.value.nodePoolManagementCreds == spec.aws.value.nodePoolManagementCreds
                  && (spec.aws.value.region != "" ==> r.aws.value.region == spec.aws.value.region))
  {
  }

  /** What comes from the infrastructure, field by field. */
  lemma FromInfrastructure(
    given: Option<HostedClusterSpec>, name: string, infraID: string, configure: bool, region: string,
    out: InfraOutput, uuid: string)
    requires out.zones != []
    ensures var r := AwsScaffold(given, name, infraID, configure, region, out, uuid);
            && r.infraID == infraID && r.platformType == AwsType && r.networking.machineCIDR == out.machineCIDR
            && r.dns.baseDomain == out.baseDomain
            && r.dns.privateZoneID == out.privateZoneID && r.dns.publicZoneID == out.publicZoneID
            && r.aws.Some? && r.aws.value.cloudProvider.Some?
            && r.aws.value.cloudProvider.value.vpc == out.vpcID
            && r.aws.value.cloudProvider.value.subnet == out.zones[0].subnetID
            && r.aws.value.cloudProvider.value.zone == out.zones[0].name
            && r.aws.value.resourceTags
               == (if given.Some? && given.value.aws.Some? then given.value.aws.value.resourceTags else [])
                  + [Tag("kubernetes.io/cluster/" + infraID, "owned")]
            && (given.None? || given.value.aws.None? || given.value.aws.value.region == "" ==> r.aws.value.region == region)
  {
  }

  /** What is filled in where the user's spec leaves a field unset. */
  lemma UnsetFieldsFilled(
    spec: HostedClusterSpec, name: string, infraID: string, configure: bool, region: string,
    out: InfraOutput, uuid: string)
    requires out.zones != []
    ensures var r := AwsScaffold(Some(spec), name, infraID, configure, region, out, uuid);
            && (spec.pullSecret == "" ==> r.pullSecret == name + "-pull-secret")
            && (spec.networking.podCIDR == "" ==> r.networking.podCIDR == "10.132.0.0/14")
            && (spec.networking.serviceCIDR == "" ==> r.networking.serviceCIDR == "172.31.0.0/16")
            && (spec.services == Some([]) ==>
                  r.services == Some([Service("APIServer", "LoadBalancer"), Service("OAuthServer", "Route"),
                                      Service("Konnectivity", "Route"), Service("Ignition", "Route")]))
            && (spec.encryption.None? ==> if configure then IsActiveKeyOnly(r.encryption, name + "-etcd-encryption-key")
                                          else r.encryption.None?)
            && r.networking.networkType
               == (if spec.networking.networkType == OVNKubernetes && Contains(spec.releaseImage, ":4.10.") then OpenShiftSDN
                   else spec.networking.networkType)
            && (spec.aws.None? ==> r.aws.value.roles.None? && r.aws.value.rolesRef == RolesRef("", "", "", "", "", "", ""))
  {
  }

  /** AESCBC encryption with this active key and no backup key. */
  predicate IsActiveKeyOnly(encryption: Option<SecretEncryption>, key: string) {
    && encryption.Some? && encryption.value.etype == AescbcType && encryption.value.aescbc.Some?
    && encryption.value.aescbc.value.activeKey == key && encryption.value.aescbc.value.backupKey.None?
  }

  /** Without a spec of the user's, cluster id, release and catalog are set as well. */
  lemma FreshSpecFilled(
    name: string, infraID: string, configure: bool, region: string, out: InfraOutput, uuid: string)
    requires out.zones != []
    ensures var r := AwsScaffold(None, name, infraID, configure, region, out, uuid);
            && r.clusterID == uuid && r.olmCatalogPlacement == "management" && r.issuerURL == "" && r.sshKey == ""
            && r.releaseImage == "quay.io/openshift-release-dev/ocp-release:4.11.2-x86_64"
            && r.pullSecret == name + "-pull-secret"
            && r.networking.podCIDR == "10.132.0.0/14" && r.networking.serviceCIDR == "172.31.0.0/16"
            && r.services.Some? && |r.services.value| == 4
            && r.configuration.None? && r.additionalTrustBundle.None? && r.serviceAccountSigningKey.None?
            && r.azureCredentials.None? && r.aws.value.roles.None?
            && if configure then IsActiveKeyOnly(r.encryption, name + "-etcd-encryption-key") else r.encryption.None?
  {
    assert |name + "-pull-secret"| >= 12;
    assert |POD_CIDR| == 13 && |SERVICE_CIDR| == 13;
  }

  // ---- node pools --------------------------------------------------------------------------------

  function DefaultPool(name: string, clusterName: string, releaseImage: string): NodePool {
    NodePool(name, NodePoolSpec(clusterName, OrElse(releaseImage, RELEASE_IMAGE), 2, NonePlatform, None, []))
  }

  function ReleaseOf(hc: Option<HostedClusterSpec>): string {
    if hc.Some? then hc.value.releaseImage else ""
  }

  /** The pools generated when the user gave none: one per zone. */
  function GeneratedPools(name: string, releaseImage: string, zones: seq<Zone>): (r: seq<NodePool>)
    ensures |r| == |zones|
  {
    seq(|zones|, i requires 0 <= i < |zones| =>
      DefaultPool(if |zones| > 1 then name + "-" + zones[i].name else name, name, releaseImage))
  }

  /** What a deployment without pools starts from; Azure passes no output. */
  function FirstPools(name: string, releaseImage: string, out: Option<InfraOutput>): seq<NodePool> {
    if out.None? then [DefaultPool(name, name, releaseImage)] else GeneratedPools(name, releaseImage, out.value.zones)
  }

  /** ScaffoldNodePoolSpec. */
  method ScaffoldNodePoolSpec(hyd: Deployment, out: Option<InfraOutput>)
    modifies hyd`nodePools
    ensures var given := if old(hyd.nodePools) == [] then FirstPools(hyd.name, ReleaseOf(hyd.hostedCluster), out)
                         else old(hyd.nodePools);
            && |hyd.nodePools| == |given|
            && forall i | 0 <= i < |given| ::
                 hyd.nodePools[i] == given[i].(spec := given[i].spec.(clusterName := hyd.name))
  {
    if |hyd.nodePools| == 0 {
      var releaseImage := "";
      if hyd.hostedCluster.Some? {
        releaseImage := hyd.hostedCluster.value.releaseImage;
      }
      if out == None {
        hyd.nodePools := [DefaultPool(hyd.name, hyd.name, releaseImage)];
      } else {
        var zones := out.value.zones;
        for z := 0 to |zones|
          invariant hyd.nodePools == GeneratedPools(hyd.name, ReleaseOf(hyd.hostedCluster), zones)[..z]
        {
          var nodePoolSpecName := hyd.name;
          if |zones| > 1 {
            nodePoolSpecName := hyd.name + "-" + zones[z].name;
          }
          hyd.nodePools := hyd.nodePools + [DefaultPool(nodePoolSpecName, hyd.name, releaseImage)];
        }
      }
    }
    ghost var given := hyd.nodePools;
    for i := 0 to |hyd.nodePools|
      invariant |hyd.nodePools| == |given|
      invariant forall k | 0 <= k < i :: hyd.nodePools[k] == given[k].(spec := given[k].spec.(clusterName := hyd.name))
      invariant forall k | i <= k < |given| :: hyd.nodePools[k] == given[k]
    {
      var np := hyd.nodePools[i];
      if np.spec.clusterName != hyd.name {
        hyd.nodePools := hyd.nodePools[i := np.(spec := np.spec.(clusterName := hyd.name))];
      }
    }
  }

  /** The pool at position `count` after the AWS loop; `count` must name a zone if the pool has no subnet. */
  function AwsPool(np: NodePool, infraID: string, out: InfraOutput, count: nat): NodePool
    requires NeedsZone(np) ==> count < |out.zones|
  {
    var aws := if np.spec.aws.Some? then np.spec.aws.value else AwsNodePool("t3.large", "", None, None);
    np.(spec := np.spec.(
          platformType := AwsType,
          aws := Some(AwsNodePool(
                   aws.instanceType,
                   OrElse(aws.instanceProfile, infraID + "-worker"),
                   if aws.subnet.Some? then aws.subnet else Some(out.zones[count].subnetID),
                   if aws.securityGroups.Some? then aws.securityGroups else Some([out.securityGroupID])))))
  }

  predicate NeedsZone(np: NodePool) {
    np.spec.aws.None? || np.spec.aws.value.subnet.None?
  }

  /** No zone index out of range: every pool without a subnet sits below the zone count. */
  predicate IndexSafe(pools: seq<NodePool>, zones: seq<Zone>) {
    forall i | 0 <= i < |pools| && NeedsZone(pools[i]) :: i < |zones|
  }

  /** The pools the loops start from. */
  function StartingPools(pools: seq<NodePool>, name: string, hc: Option<HostedClusterSpec>, zones: seq<Zone>): seq<NodePool> {
    if pools == [] then GeneratedPools(name, ReleaseOf(hc), zones) else pools
  }

  function ScaffoldedPools(
    pools: seq<NodePool>, name: string, infraID: string, hc: Option<HostedClusterSpec>, out: InfraOutput)
    : (r: seq<NodePool>)
    requires IndexSafe(StartingPools(pools, name, hc, out.zones), out.zones)
    ensures |r| == |StartingPools(pools, name, hc, out.zones)|
  {
    var start := StartingPools(pools, name, hc, out.zones);
    seq(|start|, i requires 0 <= i < |start| =>
      AwsPool(start[i].(spec := start[i].spec.(clusterName := name)), infraID, out, i))
  }

  /** ScaffoldAWSNodePoolSpec; `ok` is false where the source would index a zone that does not exist. */
  method ScaffoldAWSNodePoolSpec(hyd: Deployment, out: InfraOutput) returns (ok: bool)
    modifies hyd`nodePools
    ensures ok <==> IndexSafe(StartingPools(old(hyd.nodePools), hyd.name, hyd.hostedCluster, out.zones), out.zones)
    ensures ok ==>
              hyd.nodePools == ScaffoldedPools(old(hyd.nodePools), hyd.name, hyd.infraID, hyd.hostedCluster, out)
  {
    ScaffoldNodePoolSpec(hyd, Some(out));
    ghost var start := StartingPools(old(hyd.nodePools), hyd.name, hyd.hostedCluster, out.zones);
    ghost var named := hyd.nodePools;
    assert forall k | 0 <= k < |named| :: named[k] == start[k].(spec := start[k].spec.(clusterName := hyd.name));
    for count := 0 to |hyd.nodePools|
      invariant |hyd.nodePools| == |named|
      invariant forall k | 0 <= k < count :: NeedsZone(named[k]) ==> k < |out.zones|
      invariant forall k | 0 <= k < count :: hyd.nodePools[k] == AwsPool(named[k], hyd.infraID, out, k)
      invariant forall k | count <= k < |named| :: hyd.nodePools[k] == named[k]
    {
      var np := hyd.nodePools[count];
      np := np.(spec := np.spec.(platformType := AwsType));
      if np.spec.aws == None {
        np := np.(spec := np.spec.(aws := Some(AwsNodePool("t3.large", "", None, None))));
      }
      var aws := np.spec.aws.value;
      if aws.instanceProfile == "" {
        aws := aws.(instanceProfile := hyd.infraID + "-worker");
      }
      if aws.subnet == None {
        if count >= |out.zones| {
          assert NeedsZone(start[count]);
          return false;
        }
        aws := aws.(subnet := Some(out.zones[count].subnetID));
      }
      if aws.securityGroups == None {
        aws := aws.(securityGroups := Some([out.securityGroupID]));
      }
      hyd.nodePools := hyd.nodePools[count := np.(spec := np.spec.(aws := Some(aws)))];
    }
    assert forall k | 0 <= k < |start| :: NeedsZone(start[k]) <==> NeedsZone(named[k]);
    return true;
  }

  /** The scaffolding goes through if and only if each of the user's pools that needs a subnet sits below the zone count. */
  lemma IndexSafeIff(pools: seq<NodePool>, name: string, hc: Option<HostedClusterSpec>, zones: seq<Zone>)
    ensures IndexSafe(StartingPools(pools, name, hc, zones), zones)
       <==> forall i | 0 <= i < |pools| :: (pools[i].spec.aws.Some? && pools[i].spec.aws.value.subnet.Some?) || i < |zones|
  {
  }

  /** Without user pools there is one pool per zone, in that zone's subnet; zones with distinct names get distinct ones. */
  lemma OnePoolPerZone(name: string, infraID: string, hc: Option<HostedClusterSpec>, out: InfraOutput)
    ensures IndexSafe(StartingPools([], name, hc, out.zones), out.zones)
    ensures var r := ScaffoldedPools([], name, infraID, hc, out);
            && |r| == |out.zones|
            && (forall i | 0 <= i < |r| ::
                  r[i].spec.aws.Some? && r[i].spec.aws.value.subnet == Some(out.zones[i].subnetID))
            && (forall i, j | 0 <= i < j < |r| :: out.zones[i].name != out.zones[j].name ==> r[i].name != r[j].name)
  {
    var r := ScaffoldedPools([], name, infraID, hc, out);
    forall i, j | 0 <= i < j < |r| && out.zones[i].name != out.zones[j].name ensures r[i].name != r[j].name {
      var prefix := name + "-";
      assert r[i].name == prefix + out.zones[i].name && r[j].name == prefix + out.zones[j].name;
      assert (prefix + out.zones[i].name)[|prefix|..] == out.zones[i].name;
      assert (prefix + out.zones[j].name)[|prefix|..] == out.zones[j].name;
    }
  }

  /** What is filled in on a pool, and from which zone. */
  lemma PoolFieldsFilled(
    pools: seq<NodePool>, name: string, infraID: string, hc: Option<HostedClusterSpec>, out: InfraOutput, i: nat)
    requires IndexSafe(pools, out.zones) && i < |pools|
    ensures var r, given := ScaffoldedPools(pools, name, infraID, hc, out), pools[i].spec.aws;
            && |r| == |pools|
            && r[i].spec.clusterName == name && r[i].spec.platformType == AwsType && r[i].spec.aws.Some?
            && (given.None? ==> r[i].spec.aws.value.instanceType == "t3.large")
            && (given.None? || given.value.instanceProfile == "" ==> r[i].spec.aws.value.instanceProfile == infraID + "-worker")
            && (given.None? || given.value.subnet.None? ==>
                  i < |out.zones| && r[i].spec.aws.value.subnet == Some(out.zones[i].subnetID))
            && (given.None? || given.value.securityGroups.None? ==>
                  r[i].spec.aws.value.securityGroups == Some([out.securityGroupID]))
  {
  }

  /** Without an output of the AWS creator a single pool is made up. */
  lemma MadeUpPoolWithoutOutput(name: string, releaseImage: string)
    ensures FirstPools(name, releaseImage, None)
         == [NodePool(name, NodePoolSpec(
                              name,
                              if releaseImage == "" then "quay.io/openshift-release-dev/ocp-release:4.11.2-x86_64" else releaseImage,
                              2, NonePlatform, None, []))]
  {
  }

  /** What the pools look like that are made up when the user gave none. */
  lemma MadeUpPools(name: string, infraID: string, hc: Option<HostedClusterSpec>, out: InfraOutput, i: nat)
    requires i < |out.zones|
    ensures IndexSafe(StartingPools([], name, hc, out.zones), out.zones)
    ensures var r := ScaffoldedPools([], name, infraID, hc, out);
            && |r| == |out.zones|
            && r[i].name == (if |out.zones| == 1 then name else name + "-" + out.zones[i].name)
            && r[i].spec.clusterName == name && r[i].spec.replicas == 2 && r[i].spec.config == []
            && r[i].spec.releaseImage
               == (if hc.Some? && hc.value.releaseImage != "" then hc.value.releaseImage
                   else "quay.io/openshift-release-dev/ocp-release:4.11.2-x86_64")
            && r[i].spec.platformType == AwsType && r[i].spec.aws.Some?
            && r[i].spec.aws.value.instanceType == "t3.large"
            && r[i].spec.aws.value.instanceProfile == infraID + "-worker"
            && r[i].spec.aws.value.subnet == Some(out.zones[i].subnetID)
            && r[i].spec.aws.value.securityGroups == Some([out.securityGroupID])
  {
    var start := GeneratedPools(name, ReleaseOf(hc), out.zones);
    assert start[i].name == if |out.zones| > 1 then name + "-" + out.zones[i].name else name;
    assert ScaffoldedPools([], name, infraID, hc, out)[i]
        == AwsPool(start[i].(spec := start[i].spec.(clusterName := name)), infraID, out, i);
  }

  /** A second call with the same output finds nothing left to do. */
  lemma SecondCallChangesNothing(
    pools: seq<NodePool>, name: string, infraID: string, hc: Option<HostedClusterSpec>, out: InfraOutput)
    requires IndexSafe(StartingPools(pools, name, hc, out.zones), out.zones)
    requires out.zones != [] && infraID != ""
    ensures var r := ScaffoldedPools(pools, name, infraID, hc, out);
            && r != []
            && IndexSafe(StartingPools(r, name, hc, out.zones), out.zones)
            && ScaffoldedPools(r, name, infraID, hc, out) == r
  {
    var r := ScaffoldedPools(pools, name, infraID, hc, out);
    assert forall i | 0 <= i < |r| :: !NeedsZone(r[i]);
    assert |infraID + "-worker"| > 0;
    var again := ScaffoldedPools(r, name, infraID, hc, out);
    assert forall i | 0 <= i < |r| :: again[i] == r[i];
  }

  /** Fields a user set on a pool are preserved. */
  lemma UserPoolFieldsSurvive(
    pools: seq<NodePool>, name: string, infraID: string, hc: Option<HostedClusterSpec>, out: InfraOutput, i: nat)
    requires IndexSafe(pools, out.zones) && i < |pools|
    ensures var r := ScaffoldedPools(pools, name, infraID, hc, out);
            && |r| == |pools|
            && r[i].name == pools[i].name
            && r[i].spec.releaseImage == pools[i].spec.releaseImage
            && r[i].spec.replicas == pools[i].spec.replicas
            && r[i].spec.config == pools[i].spec.config
            && (pools[i].spec.aws.Some? ==>
                  var before, after := pools[i].spec.aws.value, r[i].spec.aws.value;
                  && after.instanceType == before.instanceType
                  && (before.instanceProfile != "" ==> after.instanceProfile == before.instanceProfile)
                  && (before.subnet.Some? ==> after.subnet == before.subnet)
                  && (before.securityGroups.Some? ==> after.securityGroups == before.securityGroups))
  {
  }

  // ---- the check before a ManifestWork is written --------------------------------------------------

  predicate PoolMatches(hcName: string, hc: HostedClusterSpec, np: NodePool) {
    np.spec.platformType == hc.platformType && np.spec.clusterName == hcName
  }

  /** The validation loop of createOrUpdateMainfestwork over the deployment's own pools. */
  method ValidateNodePools(hyd: Deployment) returns (valid: bool)
    ensures valid <==> hyd.hostedCluster.None?
                       || forall i | 0 <= i < |hyd.nodePools| ::
                            && hyd.nodePools[i].spec.platformType == hyd.hostedCluster.value.platformType
                            && hyd.nodePools[i].spec.clusterName == hyd.name
  {
    if hyd.hostedCluster.Some? && |hyd.nodePools| != 0 {
      for i := 0 to |hyd.nodePools|
        invariant forall k | 0 <= k < i :: PoolMatches(hyd.name, hyd.hostedCluster.value, hyd.nodePools[k])
      {
        var np := hyd.nodePools[i];
        if np.spec.platformType != hyd.hostedCluster.value.platformType || np.spec.clusterName != hyd.name {
          return false;
        }
      }
    }
    return true;
  }

  /** Cluster and pool scaffolding together always pass that check, from any starting specs. */
  method ScaffoldForAws(hyd: Deployment, out: InfraOutput, uuid: string) returns (ok: bool)
    requires out.zones != []
    modifies hyd`hostedCluster, hyd`nodePools
    ensures hyd.hostedCluster
         == Some(AwsScaffold(old(hyd.hostedCluster), hyd.name, hyd.infraID, hyd.configure, hyd.awsRegion, out, uuid))
    ensures ok <==> IndexSafe(
                      StartingPools(old(hyd.nodePools), hyd.name, hyd.hostedCluster, out.zones), out.zones)
    ensures ok ==>
              hyd.nodePools == ScaffoldedPools(old(hyd.nodePools), hyd.name, hyd.infraID, hyd.hostedCluster, out)
    ensures ok ==> forall i | 0 <= i < |hyd.nodePools| ::
                     PoolMatches(hyd.name, hyd.hostedCluster.value, hyd.nodePools[i])
  {
    ScaffoldAWSHostedClusterSpec(hyd, out, uuid);
    ok := ScaffoldAWSNodePoolSpec(hyd, out);
  }
}
