/**
 * The slice of the Kubernetes API the cluster service uses on a host
 * cluster, as an in-memory control plane: namespaces holding Cluster,
 * VCluster, ResourceQuota, StatefulSet, Service, Ingress, Pod and kubeconfig
 * Secret objects, a clock in seconds, and a resourceVersion counter.
 *
 * The behaviour of controllers running in the host cluster is part of the
 * environment: creating a VCluster schedules its Service to appear after
 * `serviceDelay` seconds and creates its StatefulSet and the pod "<name>-0",
 * which runs from `podDelay` seconds on; a deleted namespace stays
 * terminating for `deletionDelay` seconds and then disappears.
 * API failures other than a missing object are injected through `faults`:
 * every call of a kind listed there raises an ApiException with that status.
 */
module KubeApi {
  import opened Wrappers
  import opened Values
  import opened Manifests

  /** An ApiException, with its HTTP status. */
  datatype ApiError = ApiError(status: int)

  /** The kinds of API call, for fault injection. */
  datatype Call =
    | NamespaceRead | NamespaceCreate | NamespaceDelete
    | VClusterGet | VClusterReplace | VClusterCreate | ClusterCreate
    | QuotaCreate | QuotaList | QuotaDelete
    | ServiceRead | IngressCreate | PodList | PodRead
    | StatefulSetRead | StatefulSetReplace | StatefulSetPatch | SecretRead

  datatype StatefulSet = StatefulSet(replicas: int, templateLabels: map<string, string>, resourceVersion: nat)

  /**
   * A pod. One that has `settled` reports that phase ("Failed",
   * "Succeeded", "Unknown" or any other the cluster gives it); otherwise
   * its phase is "Running" from tick `runningFrom` on and "Pending" before.
   */
  datatype Pod = Pod(runningFrom: Option<nat>, settled: Option<string>)

  /** One `clusters` entry of a kubeconfig: its server URL and CA data, each possibly absent or empty. */
  datatype KubeconfigCluster = KubeconfigCluster(server: Option<string>, caData: Option<string>)

  datatype Namespace = Namespace(
    terminatingUntil: Option<nat>,
    clusters: map<string, ClusterObject>,
    vclusters: map<string, VCluster>,
    quotas: seq<Quota>,
    statefulSets: map<string, StatefulSet>,
    services: map<string, nat>,
    ingresses: set<string>,
    pods: map<string, Pod>,
    kubeconfigs: map<string, seq<KubeconfigCluster>>)

  const EmptyNamespace := Namespace(None, map[], map[], [], map[], map[], {}, map[], map[])

  function Phase(p: Pod, clock: nat): string {
    if p.settled.Some? then p.settled.value
    else if p.runningFrom.Some? && p.runningFrom.value <= clock then "Running"
    else "Pending"
  }

  /** Whether a quota named `name` is among `qs`. */
  predicate HasQuota(qs: seq<Quota>, name: Json) {
    exists i :: 0 <= i < |qs| && qs[i].name == name
  }

  /** `qs` without the quotas named `name`. */
  function WithoutQuota(qs: seq<Quota>, name: Json): (r: seq<Quota>)
    ensures forall q :: q in r <==> q in qs && q.name != name
  {
    if qs == [] then []
    else if qs[0].name == name then WithoutQuota(qs[1..], name)
    else [qs[0]] + WithoutQuota(qs[1..], name)
  }

  /** The namespaces still present at tick `t`: those whose deletion has not yet completed. */
  function Purge(m: map<string, Namespace>, t: nat): (r: map<string, Namespace>)
    ensures forall k :: k in r <==> k in m && !(m[k].terminatingUntil.Some? && m[k].terminatingUntil.value <= t)
    ensures forall k :: k in r ==> r[k] == m[k]
  {
    map k | k in m && !(m[k].terminatingUntil.Some? && m[k].terminatingUntil.value <= t) :: m[k]
  }

  /** `after` differs from `before` only by namespaces that disappeared. */
  predicate OnlyPurged(before: map<string, Namespace>, after: map<string, Namespace>) {
    forall k :: k in after ==> k in before && after[k] == before[k]
  }

  /** `after` differs from `before` only by namespaces that disappeared, and in namespace `except`. */
  predicate OnlyPurgedBesides(before: map<string, Namespace>, after: map<string, Namespace>, except: string) {
    forall k :: k in after && k != except ==> k in before && after[k] == before[k]
  }

  class ControlPlane {
    var namespaces: map<string, Namespace>
    var clock: nat
    var nextVersion: nat
    const faults: map<Call, int>
    const deletionDelay: nat
    const serviceDelay: nat
    const podDelay: nat

    /** Deletions in progress end no earlier than now; an injected fault is never a 404. */
    ghost predicate Valid()
      reads this
    {
      (forall ns :: ns in namespaces && namespaces[ns].terminatingUntil.Some? ==>
         namespaces[ns].terminatingUntil.value >= clock) &&
      (forall c :: c in faults ==> faults[c] != 404)
    }

    constructor(namespaces: map<string, Namespace>, faults: map<Call, int>,
                deletionDelay: nat, serviceDelay: nat, podDelay: nat)
      requires forall ns :: ns in namespaces ==> namespaces[ns].terminatingUntil.None?
      requires forall c :: c in faults ==> faults[c] != 404
      ensures Valid()
      ensures this.namespaces == namespaces && clock == 0 && nextVersion == 1
      ensures this.faults == faults && this.deletionDelay == deletionDelay
      ensures this.serviceDelay == serviceDelay && this.podDelay == podDelay
    {
      this.namespaces := namespaces;
      clock := 0;
      nextVersion := 1;
      this.faults := faults;
      this.deletionDelay := deletionDelay;
      this.serviceDelay := serviceDelay;
      this.podDelay := podDelay;
    }

    function Fault(c: Call): Option<ApiError> {
      if c in faults then Some(ApiError(faults[c])) else None
    }

    /** Whether new objects may be created in `ns`: 404 if it is absent, 403 while it terminates. */
    function Admits(ns: string): Result<(), ApiError>
      reads this
    {
      if ns !in namespaces then Err(ApiError(404))
      else if namespaces[ns].terminatingUntil.Some? then Err(ApiError(403))
      else Ok(())
    }

    function ReadNamespace(ns: string): (r: Result<(), ApiError>)
      reads this
      ensures Fault(NamespaceRead).None? ==> (r.Ok? <==> ns in namespaces)
    {
      if Fault(NamespaceRead).Some? then Err(Fault(NamespaceRead).value)
      else if ns in namespaces then Ok(())
      else Err(ApiError(404))
    }

    method CreateNamespace(ns: string) returns (r: Result<(), ApiError>)
      requires Valid()
      modifies this
      ensures Valid() && clock == old(clock) && nextVersion == old(nextVersion)
      ensures Fault(NamespaceCreate).Some? ==> r == Err(Fault(NamespaceCreate).value) && namespaces == old(namespaces)
      ensures Fault(NamespaceCreate).None? && ns in old(namespaces) ==> r == Err(ApiError(409)) && namespaces == old(namespaces)
      ensures Fault(NamespaceCreate).None? && ns !in old(namespaces) ==> r == Ok(()) && namespaces == old(namespaces)[ns := EmptyNamespace]
    {
      if Fault(NamespaceCreate).Some? {
        return Err(Fault(NamespaceCreate).value);
      }
      if ns in namespaces {
        return Err(ApiError(409));
      }
      namespaces := namespaces[ns := EmptyNamespace];
      r := Ok(());
    }

    /** Marks the namespace terminating; it disappears `deletionDelay` seconds later. */
    method DeleteNamespace(ns: string) returns (r: Result<(), ApiError>)
      requires Valid()
      modifies this
      ensures Valid() && clock == old(clock) && nextVersion == old(nextVersion)
      ensures Fault(NamespaceDelete).Some? ==> r == Err(Fault(NamespaceDelete).value) && namespaces == old(namespaces)
      ensures Fault(NamespaceDelete).None? && ns !in old(namespaces) ==> r == Err(ApiError(404)) && namespaces == old(namespaces)
      ensures Fault(NamespaceDelete).None? && ns in old(namespaces) ==>
        r == Ok(()) &&
        namespaces == old(namespaces)[ns := old(namespaces)[ns].(terminatingUntil :=
          if old(namespaces)[ns].terminatingUntil.Some? then old(namespaces)[ns].terminatingUntil
          else Some(clock + deletionDelay))]
    {
      if Fault(NamespaceDelete).Some? {
        return Err(Fault(NamespaceDelete).value);
      }
      if ns !in namespaces {
        return Err(ApiError(404));
      }
      var n := namespaces[ns];
      if n.terminatingUntil.None? {
        namespaces := namespaces[ns := n.(terminatingUntil := Some(clock + deletionDelay))];
      }
      r := Ok(());
    }

    function GetVCluster(ns: string, name: string): (r: Result<VCluster, ApiError>)
      reads this
      ensures r.Ok? ==> ns in namespaces && name in namespaces[ns].vclusters && r.value == namespaces[ns].vclusters[name]
      ensures Fault(VClusterGet).None? ==> (r.Ok? <==> ns in namespaces && name in namespaces[ns].vclusters)
    {
      if Fault(VClusterGet).Some? then Err(Fault(VClusterGet).value)
      else if ns !in namespaces || name !in namespaces[ns].vclusters then Err(ApiError(404))
      else Ok(namespaces[ns].vclusters[name])
    }

    /**
     * Replaces a VCluster, with the optimistic-concurrency check: the body
     * must carry the stored resourceVersion (422 when it carries none, 409
     * when it carries another); the stored object gets a fresh one.
     */
    method ReplaceVCluster(ns: string, name: string, body: VCluster) returns (r: Result<(), ApiError>)
      requires Valid()
      modifies this
      ensures Valid() && clock == old(clock)
      ensures r.Err? ==> namespaces == old(namespaces) && nextVersion == old(nextVersion)
      ensures Fault(VClusterReplace).Some? ==> r == Err(Fault(VClusterReplace).value)
      ensures r.Ok? <==> Fault(VClusterReplace).None? && ns in old(namespaces) && name in old(namespaces)[ns].vclusters &&
                         body.resourceVersion.Some? && body.resourceVersion == old(namespaces)[ns].vclusters[name].resourceVersion
      ensures r.Ok? ==>
        nextVersion == old(nextVersion) + 1 &&
        namespaces == old(namespaces)[ns := old(namespaces)[ns].(vclusters :=
          old(namespaces)[ns].vclusters[name := body.(resourceVersion := Some(old(nextVersion)))])]
    {
      if Fault(VClusterReplace).Some? {
        return Err(Fault(VClusterReplace).value);
      }
      if ns !in namespaces || name !in namespaces[ns].vclusters {
        return Err(ApiError(404));
      }
      if body.resourceVersion.None? {
        return Err(ApiError(422));
      }
      var n := namespaces[ns];
      if body.resourceVersion != n.vclusters[name].resourceVersion {
        return Err(ApiError(409));
      }
      namespaces := namespaces[ns := n.(vclusters := n.vclusters[name := body.(resourceVersion := Some(nextVersion))])];
      nextVersion := nextVersion + 1;
      r := Ok(());
    }

    method CreateClusterObject(ns: string, c: ClusterObject) returns (r: Result<(), ApiError>)
      requires Valid()
      modifies this
      ensures Valid() && clock == old(clock) && nextVersion == old(nextVersion)
      ensures r.Err? ==> namespaces == old(namespaces)
      ensures r.Ok? <==> Fault(ClusterCreate).None? && old(Admits(ns)).Ok? && c.name !in old(namespaces)[ns].clusters
      ensures r.Ok? ==>
        namespaces == old(namespaces)[ns := old(namespaces)[ns].(clusters := old(namespaces)[ns].clusters[c.name := c])]
    {
      if Fault(ClusterCreate).Some? {
        return Err(Fault(ClusterCreate).value);
      }
      if Admits(ns).Err? {
        return Err(Admits(ns).error);
      }
      var n := namespaces[ns];
      if c.name in n.clusters {
        return Err(ApiError(409));
      }
      namespaces := namespaces[ns := n.(clusters := n.clusters[c.name := c])];
      r := Ok(());
    }

    /** The namespace once a new VCluster is stored and its controller has reacted. */
    function WithVCluster(n: Namespace, v: VCluster, version: nat, now: nat): Namespace {
      n.(vclusters := n.vclusters[v.name := v.(resourceVersion := Some(version))],
         services := n.services[v.name := now + serviceDelay],
         statefulSets := n.statefulSets[v.name := StatefulSet(1, map[], version + 1)],
         pods := n.pods[v.name + "-0" := Pod(Some(now + podDelay), None)])
    }

    method CreateVCluster(ns: string, v: VCluster) returns (r: Result<(), ApiError>)
      requires Valid()
      modifies this
      ensures Valid() && clock == old(clock)
      ensures r.Err? ==> namespaces == old(namespaces) && nextVersion == old(nextVersion)
      ensures r.Ok? <==> Fault(VClusterCreate).None? && old(Admits(ns)).Ok? && v.name !in old(namespaces)[ns].vclusters
      ensures r.Ok? ==>
        nextVersion == old(nextVersion) + 2 &&
        namespaces == old(namespaces)[ns := WithVCluster(old(namespaces)[ns], v, old(nextVersion), clock)]
    {
      if Fault(VClusterCreate).Some? {
        return Err(Fault(VClusterCreate).value);
      }
      if Admits(ns).Err? {
        return Err(Admits(ns).error);
      }
      if v.name in namespaces[ns].vclusters {
        return Err(ApiError(409));
      }
      namespaces := namespaces[ns := WithVCluster(namespaces[ns], v, nextVersion, clock)];
      nextVersion := nextVersion + 2;
      r := Ok(());
    }

    method CreateQuota(ns: string, q: Quota) returns (r: Result<(), ApiError>)
      requires Valid()
      modifies this
      ensures Valid() && clock == old(clock) && nextVersion == old(nextVersion)
      ensures r.Err? ==> namespaces == old(namespaces)
      ensures r.Ok? <==> Fault(QuotaCreate).None? && old(Admits(ns)).Ok? && !HasQuota(old(namespaces)[ns].quotas, q.name)
      ensures r.Ok? ==>
        namespaces == old(namespaces)[ns := old(namespaces)[ns].(quotas := old(namespaces)[ns].quotas + [q])]
    {
      if Fault(QuotaCreate).Some? {
        return Err(Fault(QuotaCreate).value);
      }
      if Admits(ns).Err? {
        return Err(Admits(ns).error);
      }
      var n := namespaces[ns];
      if HasQuota(n.quotas, q.name) {
        return Err(ApiError(409));
      }
      namespaces := namespaces[ns := n.(quotas := n.quotas + [q])];
      r := Ok(());
    }

    /** Listing in a namespace that does not exist gives an empty list. */
    function ListQuotas(ns: string): (r: Result<seq<Quota>, ApiError>)
      reads this
      ensures Fault(QuotaList).None? ==> r.Ok?
      ensures r.Ok? ==> r.value == (if ns in namespaces then namespaces[ns].quotas else [])
    {
      if Fault(QuotaList).Some? then Err(Fault(QuotaList).value)
      else if ns in namespaces then Ok(namespaces[ns].quotas)
      else Ok([])
    }

    method DeleteQuota(ns: string, name: Json) returns (r: Result<(), ApiError>)
      requires Valid()
      modifies this
      ensures Valid() && clock == old(clock) && nextVersion == old(nextVersion)
      ensures r.Err? ==> namespaces == old(namespaces)
      ensures r.Ok? <==> Fault(QuotaDelete).None? && ns in old(namespaces) && HasQuota(old(namespaces)[ns].quotas, name)
      ensures r.Ok? ==>
        namespaces == old(namespaces)[ns := old(namespaces)[ns].(quotas := WithoutQuota(old(namespaces)[ns].quotas, name))]
    {
      if Fault(QuotaDelete).Some? {
        return Err(Fault(QuotaDelete).value);
      }
      if ns !in namespaces || !HasQuota(namespaces[ns].quotas, name) {
        return Err(ApiError(404));
      }
      var n := namespaces[ns];
      namespaces := namespaces[ns := n.(quotas := WithoutQuota(n.quotas, name))];
      r := Ok(());
    }

    /** A Service is found once its controller has created it. */
    function ReadService(ns: string, name: string): (r: Result<(), ApiError>)
      reads this
      ensures Fault(ServiceRead).None? ==>
        (r.Ok? <==> ns in namespaces && name in namespaces[ns].services && namespaces[ns].services[name] <= clock)
    {
      if Fault(ServiceRead).Some? then Err(Fault(ServiceRead).value)
      else if ns in namespaces && name in namespaces[ns].services && namespaces[ns].services[name] <= clock then Ok(())
      else Err(ApiError(404))
    }

    method CreateIngress(ns: string, name: string) returns (r: Result<(), ApiError>)
      requires Valid()
      modifies this
      ensures Valid() && clock == old(clock) && nextVersion == old(nextVersion)
      ensures r.Err? ==> namespaces == old(namespaces)
      ensures r.Ok? <==> Fault(IngressCreate).None? && old(Admits(ns)).Ok? && name !in old(namespaces)[ns].ingresses
      ensures r.Ok? ==>
        namespaces == old(namespaces)[ns := old(namespaces)[ns].(ingresses := old(namespaces)[ns].ingresses + {name})]
    {
      if Fault(IngressCreate).Some? {
        return Err(Fault(IngressCreate).value);
      }
      if Admits(ns).Err? {
        return Err(Admits(ns).error);
      }
      var n := namespaces[ns];
      if name in n.ingresses {
        return Err(ApiError(409));
      }
      namespaces := namespaces[ns := n.(ingresses := n.ingresses + {name})];
      r := Ok(());
    }

    /** The phases of the pods selected by `metadata.name=<name>`: the pod named exactly `name`, if any. */
    function ListPodsNamed(ns: string, name: string): (r: Result<seq<string>, ApiError>)
      reads this
      ensures Fault(PodList).None? ==> r.Ok?
      ensures r.Ok? ==> |r.value| <= 1
      ensures r.Ok? && r.value != [] ==> ns in namespaces && name in namespaces[ns].pods &&
                                         r.value == [Phase(namespaces[ns].pods[name], clock)]
    {
      if Fault(PodList).Some? then Err(Fault(PodList).value)
      else if ns in namespaces && name in namespaces[ns].pods then Ok([Phase(namespaces[ns].pods[name], clock)])
      else Ok([])
    }

    function ReadPod(ns: string, name: string): (r: Result<string, ApiError>)
      reads this
      ensures r.Ok? ==> ns in namespaces && name in namespaces[ns].pods && r.value == Phase(namespaces[ns].pods[name], clock)
      ensures Fault(PodRead).None? ==> (r.Ok? <==> ns in namespaces && name in namespaces[ns].pods)
    {
      if Fault(PodRead).Some? then Err(Fault(PodRead).value)
      else if ns in namespaces && name in namespaces[ns].pods then Ok(Phase(namespaces[ns].pods[name], clock))
      else Err(ApiError(404))
    }

    function ReadStatefulSet(ns: string, name: string): (r: Result<StatefulSet, ApiError>)
      reads this
      ensures r.Ok? ==> ns in namespaces && name in namespaces[ns].statefulSets && r.value == namespaces[ns].statefulSets[name]
      ensures Fault(StatefulSetRead).None? ==> (r.Ok? <==> ns in namespaces && name in namespaces[ns].statefulSets)
    {
      if Fault(StatefulSetRead).Some? then Err(Fault(StatefulSetRead).value)
      else if ns in namespaces && name in namespaces[ns].statefulSets then Ok(namespaces[ns].statefulSets[name])
      else Err(ApiError(404))
    }

    /**
     * Writes a StatefulSet back, as `replace_namespaced_stateful_set` (call
     * StatefulSetReplace) or `patch_namespaced_stateful_set` with the whole
     * object (call StatefulSetPatch) do: the body's resourceVersion must be the
     * stored one (409 otherwise) and the stored object gets a fresh one.
     */
    method WriteStatefulSet(call: Call, ns: string, name: string, body: StatefulSet) returns (r: Result<StatefulSet, ApiError>)
      requires Valid()
      requires call == StatefulSetReplace || call == StatefulSetPatch
      modifies this
      ensures Valid() && clock == old(clock)
      ensures r.Err? ==> namespaces == old(namespaces) && nextVersion == old(nextVersion)
      ensures Fault(call).Some? ==> r == Err(Fault(call).value)
      ensures r.Ok? <==> Fault(call).None? && ns in old(namespaces) && name in old(namespaces)[ns].statefulSets &&
                         body.resourceVersion == old(namespaces)[ns].statefulSets[name].resourceVersion
      ensures r.Ok? ==>
        r.value == body.(resourceVersion := old(nextVersion)) &&
        nextVersion == old(nextVersion) + 1 &&
        namespaces == old(namespaces)[ns := old(namespaces)[ns].(statefulSets := old(namespaces)[ns].statefulSets[name := r.value])]
    {
      if Fault(call).Some? {
        return Err(Fault(call).value);
      }
      if ns !in namespaces || name !in namespaces[ns].statefulSets {
        return Err(ApiError(404));
      }
      var n := namespaces[ns];
      if body.resourceVersion != n.statefulSets[name].resourceVersion {
        return Err(ApiError(409));
      }
      var stored := body.(resourceVersion := nextVersion);
      namespaces := namespaces[ns := n.(statefulSets := n.statefulSets[name := stored])];
      nextVersion := nextVersion + 1;
      r := Ok(stored);
    }

    function ReadKubeconfigSecret(ns: string, name: string): (r: Result<seq<KubeconfigCluster>, ApiError>)
      reads this
      ensures r.Ok? ==> ns in namespaces && name in namespaces[ns].kubeconfigs && r.value == namespaces[ns].kubeconfigs[name]
      ensures Fault(SecretRead).None? ==> (r.Ok? <==> ns in namespaces && name in namespaces[ns].kubeconfigs)
    {
      if Fault(SecretRead).Some? then Err(Fault(SecretRead).value)
      else if ns in namespaces && name in namespaces[ns].kubeconfigs then Ok(namespaces[ns].kubeconfigs[name])
      else Err(ApiError(404))
    }

    /** `time.sleep(seconds)`: the clock advances and namespaces whose deletion has completed disappear. */
    method Sleep(seconds: nat)
      requires Valid()
      modifies this
      ensures Valid() && nextVersion == old(nextVersion)
      ensures clock == old(clock) + seconds
      ensures namespaces == Purge(old(namespaces), clock)
    {
      clock := clock + seconds;
      namespaces := Purge(namespaces, clock);
    }
  }
}
