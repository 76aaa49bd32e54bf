/** The move of the deprecated AWS role list into RolesRef at the head of every reconcile. */
module RoleMigration {
  import opened Wrappers
  import opened Api

  predicate HasDeprecatedRoles(hc: Option<HostedClusterSpec>) {
    hc.Some? && hc.value.aws.Some? && hc.value.aws.value.roles.Some?
  }

  /** The ARN of the last role for a namespace, or the value that was there. */
  function LastArn(roles: seq<Role>, namespace: RoleNamespace, otherwise: string): string {
    if roles == [] then otherwise
    else if roles[|roles| - 1].namespace == namespace then roles[|roles| - 1].arn
    else LastArn(roles[..|roles| - 1], namespace, otherwise)
  }

  function MigratedRefs(refs: RolesRef, roles: seq<Role>): RolesRef {
    refs.(imageRegistry := LastArn(roles, ImageRegistry, refs.imageRegistry),
          ingress := LastArn(roles, IngressOperator, refs.ingress),
          network := LastArn(roles, CloudNetworkConfigController, refs.network),
          storage := LastArn(roles, ClusterCsiDrivers, refs.storage))
  }

  function MigratedSpec(spec: HostedClusterSpec): HostedClusterSpec
    requires HasDeprecatedRoles(Some(spec))
  {
    var aws := spec.aws.value;
    spec.(aws := Some(aws.(rolesRef := MigratedRefs(aws.rolesRef, aws.roles.value), roles := None)))
  }

  /** migrateAWSRoles. */
  method MigrateAWSRoles(hyd: Deployment) returns (migrated: bool)
    modifies hyd`hostedCluster
    ensures migrated == HasDeprecatedRoles(old(hyd.hostedCluster))
    ensures hyd.hostedCluster
         == if migrated then Some(MigratedSpec(old(hyd.hostedCluster).value)) else old(hyd.hostedCluster)
    ensures !HasDeprecatedRoles(hyd.hostedCluster)
  {
    migrated := false;
    if hyd.hostedCluster.Some? && hyd.hostedCluster.value.aws.Some? && hyd.hostedCluster.value.aws.value.roles.Some? {
      ghost var spec := hyd.hostedCluster.value;
      var aws := hyd.hostedCluster.value.aws.value;
      ghost var refs := aws.rolesRef;
      var roles := aws.roles.value;
      for i := 0 to |roles|
        invariant aws == spec.aws.value.(rolesRef := MigratedRefs(refs, roles[..i]))
      {
        assert roles[..i + 1][..i] == roles[..i];
        var role := roles[i];
        match role.namespace {
          case ImageRegistry => aws := aws.(rolesRef := aws.rolesRef.(imageRegistry := role.arn));
          case IngressOperator => aws := aws.(rolesRef := aws.rolesRef.(ingress := role.arn));
          case CloudNetworkConfigController => aws := aws.(rolesRef := aws.rolesRef.(network := role.arn));
          case ClusterCsiDrivers => aws := aws.(rolesRef := aws.rolesRef.(storage := role.arn));
          case OtherNamespace(_) =>
        }
      }
      assert roles[..|roles|] == roles;
      aws := aws.(roles := None);
      hyd.hostedCluster := Some(hyd.hostedCluster.value.(aws := Some(aws)));
      migrated := true;
    }
  }

  /** Exactly the last role of a namespace counts. */
  lemma {:induction false} LastRoleWins(roles: seq<Role>, namespace: RoleNamespace, otherwise: string, i: nat)
    requires i < |roles| && roles[i].namespace == namespace
    requires forall k | i < k < |roles| :: roles[k].namespace != namespace
    ensures LastArn(roles, namespace, otherwise) == roles[i].arn
  {
    var n := |roles| - 1;
    if i < n {
      LastRoleWins(roles[..n], namespace, otherwise, i);
    }
  }

  /** Without a role of that namespace the reference stays as it was. */
  lemma {:induction false} UnmatchedReferenceStays(roles: seq<Role>, namespace: RoleNamespace, otherwise: string)
    requires forall k | 0 <= k < |roles| :: roles[k].namespace != namespace
    ensures LastArn(roles, namespace, otherwise) == otherwise
  {
    if roles != [] {
      UnmatchedReferenceStays(roles[..|roles| - 1], namespace, otherwise);
    }
  }

  /** `arn` is that of the last role of the namespace, or `otherwise` if there is no such role. */
  predicate IsArnFor(roles: seq<Role>, namespace: RoleNamespace, otherwise: string, arn: string) {
    || (exists i | 0 <= i < |roles| ::
          roles[i] == Role(namespace, arn) && forall k | i < k < |roles| :: roles[k].namespace != namespace)
    || (arn == otherwise && forall k | 0 <= k < |roles| :: roles[k].namespace != namespace)
  }

  lemma {:induction false} LastArnIs(roles: seq<Role>, namespace: RoleNamespace, otherwise: string)
    ensures IsArnFor(roles, namespace, otherwise, LastArn(roles, namespace, otherwise))
  {
    if roles != [] {
      var n := |roles| - 1;
      if roles[n].namespace == namespace {
        assert roles[n] == Role(namespace, roles[n].arn);
      } else {
        LastArnIs(roles[..n], namespace, otherwise);
        assert forall i | 0 <= i < n :: roles[..n][i] == roles[i];
      }
    }
  }

  /** Which namespace goes to which reference; nothing else in the spec changes but the list. */
  lemma MigrationFillsReferences(spec: HostedClusterSpec, aws: AwsPlatform, roles: seq<Role>)
    requires spec.aws == Some(aws) && aws.roles == Some(roles)
    ensures var refs := MigratedSpec(spec).aws.value.rolesRef;
            && IsArnFor(roles, ImageRegistry, aws.rolesRef.imageRegistry, refs.imageRegistry)
            && IsArnFor(roles, IngressOperator, aws.rolesRef.ingress, refs.ingress)
            && IsArnFor(roles, CloudNetworkConfigController, aws.rolesRef.network, refs.network)
            && IsArnFor(roles, ClusterCsiDrivers, aws.rolesRef.storage, refs.storage)
            && refs.controlPlaneOperator == aws.rolesRef.controlPlaneOperator
            && refs.kubeCloudController == aws.rolesRef.kubeCloudController
            && refs.nodePoolManagement == aws.rolesRef.nodePoolManagement
            && MigratedSpec(spec) == spec.(aws := Some(aws.(rolesRef := refs, roles := None)))
  {
    LastArnIs(roles, ImageRegistry, aws.rolesRef.imageRegistry);
    LastArnIs(roles, IngressOperator, aws.rolesRef.ingress);
    LastArnIs(roles, CloudNetworkConfigController, aws.rolesRef.network);
    LastArnIs(roles, ClusterCsiDrivers, aws.rolesRef.storage);
  }

  /** Migrating a list in two installments is migrating it at once, so a user may re-add roles later. */
  lemma {:induction false} MigrationComposes(refs: RolesRef, first: seq<Role>, second: seq<Role>)
    ensures MigratedRefs(refs, first + second) == MigratedRefs(MigratedRefs(refs, first), second)
  {
    if second == [] {
      assert first + second == first;
    } else {
      var n := |second| - 1;
      assert (first + second)[..|first| + n] == first + second[..n];
      MigrationComposes(refs, first, second[..n]);
    }
  }
}
