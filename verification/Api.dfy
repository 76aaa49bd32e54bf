/**
 The API objects the controllers read and write, reduced to the fields they touch.

 Values (specs, conditions, manifests) are datatypes; the in-memory HypershiftDeployment that the
 reconciler passes around by pointer and updates field by field is the class `Deployment`.
 */
module Api {
  import opened Wrappers

  const TRUE := "True"

  /** The condition types this controller names; a ManifestWork may carry others. */
  datatype ConditionType =
    | PlatformConfigured
    | PlatformIAMConfigured
    | ProviderSecretConfigured
    | HostedClusterAvailable
    | HostedClusterProgress
    | NodePoolReady
    | WorkProgressing
    | WorkApplied
    | WorkAvailable
    | WorkDegraded
    | WorkConfigured
    | OtherCondition(name: string)

  /** metav1.Condition without its transition time. */
  datatype Condition = Condition(
    ctype: ConditionType,
    status: string,
    observedGeneration: int,
    reason: string,
    message: string)

  datatype PlatformType = NonePlatform | AwsType | AzureType | OtherType(name: string)

  /** The seven role ARNs of AWSPlatformSpec.RolesRef. */
  datatype RolesRef = RolesRef(
    imageRegistry: string,
    ingress: string,
    network: string,
    storage: string,
    controlPlaneOperator: string,
    kubeCloudController: string,
    nodePoolManagement: string)

  /** An entry of the deprecated AWSPlatformSpec.Roles list. */
  datatype Role = Role(namespace: RoleNamespace, arn: string)

  /** The component namespaces the migration knows, and any other. */
  datatype RoleNamespace =
    | ImageRegistry
    | IngressOperator
    | CloudNetworkConfigController
    | ClusterCsiDrivers
    | OtherNamespace(name: string)

  datatype Tag = Tag(key: string, value: string)

  datatype CloudProviderConfig = CloudProviderConfig(subnet: string, vpc: string, zone: string)

  datatype AwsPlatform = AwsPlatform(
    region: string,
    resourceTags: seq<Tag>,
    cloudProvider: Option<CloudProviderConfig>,
    rolesRef: RolesRef,
    roles: Option<seq<Role>>,
    controlPlaneOperatorCreds: string,
    kubeCloudControllerCreds: string,
    nodePoolManagementCreds: string)

  datatype Networking = Networking(serviceCIDR: string, podCIDR: string, machineCIDR: string, networkType: NetworkType)

  datatype NetworkType = OVNKubernetes | OpenShiftSDN | OtherNetwork(name: string)

  datatype Dns = Dns(baseDomain: string, privateZoneID: string, publicZoneID: string)

  datatype Service = Service(service: string, strategy: string)

  datatype EncryptionType = AescbcType | KmsType | OtherEncryption

  datatype Aescbc = Aescbc(activeKey: string, backupKey: Option<string>)

  datatype SecretEncryption = SecretEncryption(
    etype: EncryptionType,
    aescbc: Option<Aescbc>,
    kmsAwsAuth: Option<string>)

  datatype Configuration = Configuration(secretRefs: seq<string>, configMapRefs: seq<string>)

  /** `services` distinguishes a nil list (None) from an empty one, as the source's DeepEqual does. */
  datatype HostedClusterSpec = HostedClusterSpec(
    infraID: string,
    clusterID: string,
    issuerURL: string,
    olmCatalogPlacement: string,
    releaseImage: string,
    pullSecret: string,
    sshKey: string,
    networking: Networking,
    dns: Dns,
    services: Option<seq<Service>>,
    encryption: Option<SecretEncryption>,
    configuration: Option<Configuration>,
    additionalTrustBundle: Option<string>,
    serviceAccountSigningKey: Option<string>,
    platformType: PlatformType,
    aws: Option<AwsPlatform>,
    azureCredentials: Option<string>)

  datatype AwsNodePool = AwsNodePool(
    instanceType: string,
    instanceProfile: string,
    subnet: Option<string>,
    securityGroups: Option<seq<string>>)

  datatype NodePoolSpec = NodePoolSpec(
    clusterName: string,
    releaseImage: string,
    replicas: int,
    platformType: PlatformType,
    aws: Option<AwsNodePool>,
    config: seq<string>)

  datatype NodePool = NodePool(name: string, spec: NodePoolSpec)

  /** What the AWS infrastructure creator returns. */
  datatype Zone = Zone(name: string, subnetID: string)

  datatype InfraOutput = InfraOutput(
    baseDomain: string,
    privateZoneID: string,
    publicZoneID: string,
    machineCIDR: string,
    vpcID: string,
    securityGroupID: string,
    zones: seq<Zone>)

  /** What the AWS IAM creator returns. */
  datatype IamOutput = IamOutput(issuerURL: string, roles: RolesRef)

  /** The reconciler's in-memory copy of one HypershiftDeployment. */
  class Deployment {
    const name: string
    const namespace: string
    var generation: int
    var infraID: string
    var hostingNamespace: string
    var configure: bool
    var awsRegion: string
    var hostedCluster: Option<HostedClusterSpec>
    var nodePools: seq<NodePool>
    var conditions: seq<Condition>

    constructor (name: string, namespace: string)
      ensures this.name == name && this.namespace == namespace
      ensures hostedCluster == None && nodePools == [] && conditions == [] && infraID == ""
    {
      this.name := name;
      this.namespace := namespace;
      generation := 1;
      infraID := "";
      hostingNamespace := "";
      configure := false;
      awsRegion := "";
      hostedCluster := None;
      nodePools := [];
      conditions := [];
    }
  }
}
