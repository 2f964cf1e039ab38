/**
 * The three manifests the cluster service submits, as records rather than
 * YAML text: the ResourceQuota built from a plan, the Cluster API `Cluster`
 * object and the `VCluster` object with its helm release.
 */
module Manifests {
  import opened Wrappers
  import opened Values
  import opened ServiceSubscription

  /** A ResourceQuota: its name, namespace and `spec.hard` limits. */
  datatype Quota = Quota(name: Json, namespace: string, hard: map<string, Json>)

  /** `generate_resource_quota_yaml`: the plan's counts under the quota's resource names. */
  function ResourceQuotaFor(s: Subscription, namespace: string): Quota {
    Quota(s.name, namespace,
          map["pods" := s.pods,
              "services" := s.service,
              "configmaps" := s.configMap,
              "persistentvolumeclaims" := s.persistenceVolClaims,
              "replicationcontrollers" := s.replicationCtl,
              "secrets" := s.secrets,
              "services.loadbalancers" := s.loadbalancer,
              "services.nodeports" := s.nodePort])
  }

  /** The limits a quota sets. */
  const HardKeys: set<string> := {"pods", "services", "configmaps", "persistentvolumeclaims",
                                  "replicationcontrollers", "secrets", "services.loadbalancers",
                                  "services.nodeports"}

  /** Reading the plan back out of a quota; None when a limit is missing. */
  function PlanOfQuota(q: Quota): Option<Subscription> {
    if HardKeys <= q.hard.Keys then
      Some(Subscription(q.name, q.hard["pods"], q.hard["services"], q.hard["configmaps"],
                        q.hard["persistentvolumeclaims"], q.hard["replicationcontrollers"],
                        q.hard["secrets"], q.hard["services.loadbalancers"], q.hard["services.nodeports"]))
    else None
  }

  /**
   * The quota carries the plan field by field: it is named after the plan, sits
   * in the given namespace, sets exactly the eight limits, and the plan can be
   * read back from it unchanged.
   */
  lemma QuotaCarriesPlan(s: Subscription, namespace: string)
    ensures ResourceQuotaFor(s, namespace).name == s.name
    ensures ResourceQuotaFor(s, namespace).namespace == namespace
    ensures ResourceQuotaFor(s, namespace).hard.Keys == HardKeys
    ensures PlanOfQuota(ResourceQuotaFor(s, namespace)) == Some(s)
  {
  }

  /** Two plans give the same quota in a namespace only if they are the same plan. */
  lemma QuotaForIsInjective(s1: Subscription, s2: Subscription, namespace: string)
    requires ResourceQuotaFor(s1, namespace) == ResourceQuotaFor(s2, namespace)
    ensures s1 == s2
  {
    QuotaCarriesPlan(s1, namespace);
    QuotaCarriesPlan(s2, namespace);
  }

  /** A reference to another object: API version, kind and name. */
  datatype ObjectRef = ObjectRef(apiVersion: string, kind: string, name: string)

  /** A Cluster API `Cluster` object. */
  datatype ClusterObject = ClusterObject(name: string, namespace: string,
                                         controlPlaneRef: ObjectRef, infrastructureRef: ObjectRef)

  const VClusterApiVersion := "infrastructure.cluster.x-k8s.io/v1alpha1"

  /** `generate_cluster_yaml`. */
  function ClusterObjectFor(name: string, namespace: string): ClusterObject {
    ClusterObject(name, namespace,
                  ObjectRef(VClusterApiVersion, "VCluster", name),
                  ObjectRef(VClusterApiVersion, "VCluster", name))
  }

  datatype Chart = Chart(name: string, repo: string, version: string)
  datatype Image = Image(registry: string, repository: string, tag: string)

  /** A `VCluster` object; `resourceVersion` is set only on a replacement body. */
  datatype VCluster = VCluster(
    name: string,
    namespace: string,
    host: string,
    port: nat,
    chart: Chart,
    k8sDistroEnabled: bool,
    apiServer: Image,
    controllerManager: Image,
    extraSans: seq<string>,
    resourceVersion: Option<nat>)

  /** `generate_vclusterYaml`. */
  function VClusterFor(name: string, namespace: string, host: string, kubeVersion: string): VCluster {
    VCluster(name, namespace, host, 443,
             Chart("vcluster", "https://charts.loft.sh", "0.20.0"),
             false,
             Image("registry.k8s.io", "kube-apiserver", kubeVersion),
             Image("registry.k8s.io", "kube-controller-manager", kubeVersion),
             [host],
             None)
  }

  /** A Cluster's two references both point at the given VCluster. */
  predicate RefersTo(c: ClusterObject, v: VCluster) {
    c.namespace == v.namespace &&
    c.controlPlaneRef == ObjectRef(VClusterApiVersion, "VCluster", v.name) &&
    c.infrastructureRef == ObjectRef(VClusterApiVersion, "VCluster", v.name)
  }

  /** A VCluster is reachable at its host: the endpoint on port 443 and the host as its only extra SAN. */
  predicate ServesHost(v: VCluster, host: string) {
    v.host == host && v.port == 443 && v.extraSans == [host]
  }

  /** Both control-plane images run the given Kubernetes version. */
  predicate RunsVersion(v: VCluster, kubeVersion: string) {
    v.apiServer.tag == kubeVersion && v.controllerManager.tag == kubeVersion
  }

  /**
   * The Cluster and VCluster generated for one name fit together: the Cluster
   * refers to that VCluster, which serves the host and runs the requested version.
   */
  lemma GeneratedObjectsFit(name: string, namespace: string, host: string, kubeVersion: string)
    ensures RefersTo(ClusterObjectFor(name, namespace), VClusterFor(name, namespace, host, kubeVersion))
    ensures ServesHost(VClusterFor(name, namespace, host, kubeVersion), host)
    ensures RunsVersion(VClusterFor(name, namespace, host, kubeVersion), kubeVersion)
    ensures VClusterFor(name, namespace, host, kubeVersion).resourceVersion.None?
  {
  }

  /** A Cluster refers to a VCluster of another name in no case. */
  lemma ClusterRefersOnlyToItsOwnName(name: string, namespace: string, v: VCluster)
    requires RefersTo(ClusterObjectFor(name, namespace), v)
    ensures v.name == name && v.namespace == namespace
  {
  }
}
