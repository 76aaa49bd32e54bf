/**
 The labels and annotations of an imported managed cluster. The defaults are filled in by loops over
 Go maps, whose order is arbitrary; what comes out does not depend on it.
 */
module ClusterMeta {
  import opened Wrappers
  import opened OwnerAnnotation

  type Meta = map<string, string>

  const CLUSTER_SET_LABEL := "cluster.open-cluster-management.io/clusterset"

  /** A default is filled in where the key is absent or its value is empty. */
  predicate Missing(m: Meta, key: string) {
    key !in m || m[key] == ""
  }

  function Filled(m: Meta, defaults: Meta): Meta {
    m + map key | key in defaults && Missing(m, key) :: defaults[key]
  }

  /** What the loops report: some default was written, be it the same empty value again. */
  ghost predicate Reports(m: Meta, defaults: Meta) {
    exists key | key in defaults :: Missing(m, key)
  }

  function OrEmpty(m: Option<Meta>): Meta {
    if m.Some? then m.value else map[]
  }

  function LabelDefaults(clusterSet: string): Meta {
    map[CLUSTER_SET_LABEL := clusterSet, "vendor" := "OpenShift", "cloud" := "auto-detect"]
  }

  function AnnotationDefaults(namespace: string, name: string, hostingCluster: string): Meta {
    map[
      "import.open-cluster-management.io/klusterlet-deploy-mode" := "Hosted",
      "import.open-cluster-management.io/hosting-cluster-name" := hostingCluster,
      "cluster.open-cluster-management.io/hypershiftdeployment" := namespace + "/" + name,
      "cluster.open-cluster-management.io/provisioner" :=
        name + "." + namespace + ".HypershiftDeployment.cluster.open-cluster-management.io"
    ]
  }

  class ManagedClusterMeta {
    var labels: Option<Meta>
    var annotations: Option<Meta>

    constructor (labels: Option<Meta>, annotations: Option<Meta>)
      ensures this.labels == labels && this.annotations == annotations
    {
      this.labels := labels;
      this.annotations := annotations;
    }

    /** ensureManagedClusterObjectMeta. */
    method EnsureObjectMeta(namespace: string, name: string, clusterSet: string, hostingCluster: string)
      returns (changed: bool)
      modifies this
      ensures labels == Some(Filled(OrEmpty(old(labels)), LabelDefaults(clusterSet)))
      ensures annotations == Some(Filled(OrEmpty(old(annotations)), AnnotationDefaults(namespace, name, hostingCluster)))
      ensures changed <==>
              || Reports(OrEmpty(old(labels)), LabelDefaults(clusterSet))
              || Reports(OrEmpty(old(annotations)), AnnotationDefaults(namespace, name, hostingCluster))
    {
      var filledLabels, labelChanged := FillIn(OrEmpty(labels), LabelDefaults(clusterSet));
      labels := Some(filledLabels);
      var filledAnnotations, annoChanged := FillIn(OrEmpty(annotations), AnnotationDefaults(namespace, name, hostingCluster));
      annotations := Some(filledAnnotations);
      return labelChanged || annoChanged;
    }
  }

  lemma FilledOneMore(m: Meta, defaults: Meta, key: string, value: string)
    requires key !in defaults
    ensures Missing(Filled(m, defaults), key) <==> Missing(m, key)
    ensures Filled(m, defaults[key := value])
         == if Missing(m, key) then Filled(m, defaults)[key := value] else Filled(m, defaults)
    ensures Reports(m, defaults[key := value]) <==> Reports(m, defaults) || Missing(m, key)
  {
  }

  /** One of the loops: setLabelIfNotPresent or setAnnotationIfNotPresent for each default, in any order. */
  method FillIn(m: Meta, defaults: Meta) returns (filled: Meta, changed: bool)
    ensures filled == Filled(m, defaults)
    ensures changed <==> Reports(m, defaults)
  {
    filled, changed := m, false;
    var keys := defaults.Keys;
    while keys != {}
      invariant keys <= defaults.Keys
      invariant filled == Filled(m, defaults - keys)
      invariant changed <==> Reports(m, defaults - keys)
    {
      var key :| key in keys;
      FilledOneMore(m, defaults - keys, key, defaults[key]);
      assert defaults - (keys - {key}) == (defaults - keys)[key := defaults[key]];
      if Missing(filled, key) {
        filled := filled[key := defaults[key]];
        changed := true;
      }
      keys := keys - {key};
    }
    assert defaults - keys == defaults;
  }

  /** A value that is not empty is never overwritten, and no other key is touched. */
  lemma NeverOverwrites(m: Meta, defaults: Meta, key: string)
    ensures key in m && m[key] != "" ==> key in Filled(m, defaults) && Filled(m, defaults)[key] == m[key]
    ensures key !in defaults ==> (key in Filled(m, defaults) <==> key in m)
    ensures key !in defaults && key in m ==> Filled(m, defaults)[key] == m[key]
    ensures key in defaults ==> key in Filled(m, defaults)
    ensures key in defaults && Missing(m, key) ==> Filled(m, defaults)[key] == defaults[key]
  {
  }

  /** Filling in twice is filling in once. */
  lemma FillingIsIdempotent(m: Meta, defaults: Meta)
    ensures Filled(Filled(m, defaults), defaults) == Filled(m, defaults)
  {
  }

  /**
   The report is not quite whether the metadata changed: a default that is itself empty is written, and
   reported, again and again. It is exact if and only if some missing default is new or not empty, or
   none is missing.
   */
  lemma ReportIsExactUnlessEmpty(m: Meta, defaults: Meta)
    ensures (Reports(m, defaults) <==> Filled(m, defaults) != m)
       <==> (Reports(m, defaults) ==> exists key | key in defaults :: key !in m || (m[key] == "" && defaults[key] != ""))
  {
  }

  /** A second pass reports a change if and only if it meets an empty default that nothing overrides. */
  lemma SecondReport(m: Meta, defaults: Meta)
    ensures Reports(Filled(m, defaults), defaults) <==> exists key | key in defaults :: Missing(m, key) && defaults[key] == ""
  {
  }

  // ---- the defaults ensureManagedCluster passes ---------------------------------------------------

  /** The set the user asked for, else the hosting cluster's (GetClusterSetName). */
  function ClusterSetFor(requested: string, hostingLabels: Meta): (r: string)
    ensures r != ""
  {
    if requested != "" then requested
    else if CLUSTER_SET_LABEL in hostingLabels && hostingLabels[CLUSTER_SET_LABEL] != "" then hostingLabels[CLUSTER_SET_LABEL]
    else "default"
  }

  /** GetHostingCluster: the deployment's namespace unless a cluster is named. */
  function HostingClusterFor(hostingCluster: string, namespace: string): (r: string)
    requires namespace != ""
    ensures r != ""
  {
    if hostingCluster == "" then namespace else hostingCluster
  }

  lemma NoEmptyDefaults(defaults: Meta, m: Meta)
    requires forall key | key in defaults :: defaults[key] != ""
    ensures Reports(m, defaults) <==> Filled(m, defaults) != m
    ensures !Reports(Filled(m, defaults), defaults)
  {
    ReportIsExactUnlessEmpty(m, defaults);
    SecondReport(m, defaults);
  }

  /**
   With the cluster set and hosting cluster that ensureManagedCluster works out, no default is empty. So
   a change is reported exactly when the labels or the annotations change, and a second pass reports none.
   */
  lemma ReportIsExact(
    labels: Meta, annotations: Meta, namespace: string, name: string, requested: string, hostingLabels: Meta,
    hostingCluster: string)
    requires namespace != ""
    ensures var labelDefaults := LabelDefaults(ClusterSetFor(requested, hostingLabels));
            var annoDefaults := AnnotationDefaults(namespace, name, HostingClusterFor(hostingCluster, namespace));
            && (Reports(labels, labelDefaults) || Reports(annotations, annoDefaults)
                <==> Filled(labels, labelDefaults) != labels || Filled(annotations, annoDefaults) != annotations)
            && !Reports(Filled(labels, labelDefaults), labelDefaults)
            && !Reports(Filled(annotations, annoDefaults), annoDefaults)
  {
    var annoDefaults := AnnotationDefaults(namespace, name, HostingClusterFor(hostingCluster, namespace));
    assert |namespace + "/" + name| > 0;
    NoEmptyDefaults(LabelDefaults(ClusterSetFor(requested, hostingLabels)), labels);
    NoEmptyDefaults(annoDefaults, annotations);
  }

  lemma FilledFromNothing(defaults: Meta)
    ensures Filled(map[], defaults) == defaults
  {
  }

  /** The labels ensureManagedCluster puts on a new cluster. */
  lemma NewLabels(requested: string, hostingLabels: Meta, labels: Meta, clusterSet: string)
    requires labels == Filled(map[], LabelDefaults(ClusterSetFor(requested, hostingLabels)))
    requires clusterSet == (
               if requested != "" then requested
               else if CLUSTER_SET_LABEL in hostingLabels && hostingLabels[CLUSTER_SET_LABEL] != ""
               then hostingLabels[CLUSTER_SET_LABEL]
               else "default")
    ensures labels == map[
                        "cluster.open-cluster-management.io/clusterset" := clusterSet,
                        "vendor" := "OpenShift",
                        "cloud" := "auto-detect"]
  {
    FilledFromNothing(LabelDefaults(clusterSet));
  }

  /** The keys are different strings. */
  lemma AnnotationKeys()
    ensures |"import.open-cluster-management.io/klusterlet-deploy-mode"| == 56
    ensures |"import.open-cluster-management.io/hosting-cluster-name"| == 54
    ensures |"cluster.open-cluster-management.io/hypershiftdeployment"| == 55
    ensures |"cluster.open-cluster-management.io/provisioner"| == 46
  {
  }

  /**
   Its annotations. The one that names the deployment leads back to it, and to nothing else, unless one
   of the two parts contains the separator.
   */
  lemma NewAnnotations(namespace: string, name: string, hostingCluster: string, annotations: Meta)
    requires namespace != ""
    requires annotations
          == Filled(map[], AnnotationDefaults(namespace, name, HostingClusterFor(hostingCluster, namespace)))
    ensures "cluster.open-cluster-management.io/hypershiftdeployment" in annotations
    ensures Requests(annotations["cluster.open-cluster-management.io/hypershiftdeployment"]) == [Request(namespace, name)]
       <==> SEPARATOR !in namespace && SEPARATOR !in name
    ensures annotations == map[
                             "import.open-cluster-management.io/klusterlet-deploy-mode" := "Hosted",
                             "import.open-cluster-management.io/hosting-cluster-name" :=
                               if hostingCluster != "" then hostingCluster else namespace,
                             "cluster.open-cluster-management.io/hypershiftdeployment" := Format(namespace, name),
                             "cluster.open-cluster-management.io/provisioner" :=
                               name + "." + namespace + ".HypershiftDeployment.cluster.open-cluster-management.io"]
  {
    FilledFromNothing(AnnotationDefaults(namespace, name, HostingClusterFor(hostingCluster, namespace)));
    LeadsBackToOwner(namespace, name);
    AnnotationKeys();
    assert namespace + "/" + name == Format(namespace, name);
  }
}
