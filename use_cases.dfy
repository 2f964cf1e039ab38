/**
 * The lifecycle handlers of the cluster service, over the in-memory control
 * plane of the host cluster: create-or-replace, start, stop, delete and plan
 * upgrade, and the two polling waits the creation uses.
 *
 * Inside their `try`, the handlers answer any exception by raising
 * `http.client.HTTPException(status_code=500, detail=...)`; that class takes
 * no keyword arguments, so the raise itself fails and the request ends in an
 * unhandled exception, which the web framework answers with status 500. The
 * model reports both as `ServerError` with the text of the original error.
 */
module UseCases {
  import opened Wrappers
  import opened Text
  import opened Values
  import opened ServiceSubscription
  import opened Manifests
  import opened KubeApi
  import opened ClusterUtils

  /** How a handler fails. */
  datatype Failure =
    | MissingKey(key: string)      // KeyError raised before the handler's `try`
    | ServerError(detail: string)  // caught inside the `try`, ending in status 500
    | StillWaiting                 // the unbounded service wait ran out of polls (see WaitForServiceCreation)

  /** Every handler places a cluster's objects in the namespace "<name>-vcluster". */
  function NamespaceFor(name: string): string {
    name + "-vcluster"
  }

  /** Distinct clusters never share a namespace. */
  lemma NamespaceForInjective(a: string, b: string)
    requires NamespaceFor(a) == NamespaceFor(b)
    ensures a == b
  {
    assert |a| == |b|;
    assert a == NamespaceFor(a)[..|a|];
    assert b == NamespaceFor(b)[..|b|];
  }

  datatype ServiceWait = Found | Raised(error: ApiError) | OutOfPolls

  /**
   * `wait_for_service_creation`: reads the Service every 5 seconds until it
   * exists, raising any error other than 404. The source loops without bound;
   * here at most `polls` reads are made, and OutOfPolls stands for a wait
   * that is still going on.
   */
  method WaitForServiceCreation(cp: ControlPlane, ns: string, name: string, polls: nat) returns (r: ServiceWait)
    requires cp.Valid()
    modifies cp
    ensures cp.Valid() && cp.nextVersion == old(cp.nextVersion)
    ensures OnlyPurged(old(cp.namespaces), cp.namespaces)
    ensures old(cp.clock) <= cp.clock
    ensures r == Found ==> cp.ReadService(ns, name).Ok?
    ensures r.Raised? ==> cp.Fault(ServiceRead) == Some(r.error) &&
                          cp.namespaces == old(cp.namespaces) && cp.clock == old(cp.clock)
    ensures (cp.Fault(ServiceRead).None? && ns in old(cp.namespaces) && old(cp.namespaces)[ns].terminatingUntil.None? &&
             name in old(cp.namespaces)[ns].services && polls > 0 &&
             old(cp.namespaces)[ns].services[name] <= old(cp.clock) + 5 * (polls - 1)) ==> r == Found
  {
    ghost var start := cp.clock;
    var i := 0;
    while i < polls
      invariant 0 <= i <= polls
      invariant cp.Valid() && cp.nextVersion == old(cp.nextVersion)
      invariant OnlyPurged(old(cp.namespaces), cp.namespaces)
      invariant cp.clock == start + 5 * i
      invariant cp.Fault(ServiceRead).Some? ==> i == 0 && cp.namespaces == old(cp.namespaces)
      invariant ns in old(cp.namespaces) && old(cp.namespaces)[ns].terminatingUntil.None? ==>
        ns in cp.namespaces && cp.namespaces[ns] == old(cp.namespaces)[ns]
      invariant cp.Fault(ServiceRead).None? && ns in old(cp.namespaces) && old(cp.namespaces)[ns].terminatingUntil.None? &&
                name in old(cp.namespaces)[ns].services && i > 0 ==>
        start + 5 * (i - 1) < old(cp.namespaces)[ns].services[name]
    {
      var read := cp.ReadService(ns, name);
      if read.Ok? {
        return Found;
      }
      if read.error.status != 404 {
        return Raised(read.error);
      }
      cp.Sleep(5);
      i := i + 1;
    }
    r := OutOfPolls;
  }

  /** Whether every listed pod is in phase "Running"; true of an empty list. */
  predicate AllRunning(phases: seq<string>) {
    forall i :: 0 <= i < |phases| ==> phases[i] == "Running"
  }

  datatype Readiness = Ready | TimedOut | Failed(message: string)

  /** The labels the status controller selects on. */
  function StatusLabels(clusterId: string): map<string, string> {
    map["status-controller-vcluster" := "cluster-manager", "status-controller" := clusterId]
  }

  /**
   * `wait_for_sts_pod_readiness`: lists the pods selected by
   * `metadata.name=<name>` every 5 seconds. Once all of them run it labels
   * the StatefulSet for the status controller and reports Ready; after a
   * not-ready check more than 300 seconds after the start it reports
   * TimedOut; an error comes back as a message.
   */
  method WaitForStsPodReadiness(cp: ControlPlane, ns: string, name: string, clusterId: string) returns (r: Readiness)
    requires cp.Valid()
    modifies cp
    ensures cp.Valid()
    ensures OnlyPurgedBesides(old(cp.namespaces), cp.namespaces, ns)
    ensures ns in old(cp.namespaces) && old(cp.namespaces)[ns].terminatingUntil.None? ==>
      ns in cp.namespaces && cp.namespaces[ns] == old(cp.namespaces)[ns].(statefulSets := cp.namespaces[ns].statefulSets) &&
      cp.namespaces[ns].statefulSets.Keys == old(cp.namespaces)[ns].statefulSets.Keys
    ensures ns in old(cp.namespaces) && old(cp.namespaces)[ns].terminatingUntil.None? ==>
      var before := old(cp.namespaces)[ns].statefulSets;
      if r == Ready && cp.Fault(StatefulSetRead).None? && cp.Fault(StatefulSetPatch).None? && name in before then
        cp.namespaces[ns].statefulSets ==
          before[name := before[name].(templateLabels := MergeLabels(before[name].templateLabels, StatusLabels(clusterId)),
                                       resourceVersion := old(cp.nextVersion))]
      else cp.namespaces[ns].statefulSets == before
    ensures old(cp.clock) <= cp.clock <= old(cp.clock) + 305
    ensures r == TimedOut ==> cp.clock - old(cp.clock) > 300 && cp.ListPodsNamed(ns, name).Ok? &&
                              !AllRunning(cp.ListPodsNamed(ns, name).value)
    ensures r == Ready ==> cp.ListPodsNamed(ns, name).Ok? && AllRunning(cp.ListPodsNamed(ns, name).value)
    ensures r.Failed? ==> cp.Fault(PodList).Some? && StartsWith(r.message, "An error occurred: ") &&
                          cp.clock == old(cp.clock) && cp.namespaces == old(cp.namespaces)
    ensures cp.Fault(PodList).None? && (ns !in old(cp.namespaces) || name !in old(cp.namespaces)[ns].pods) ==>
      r == Ready && cp.clock == old(cp.clock)
  {
    var start := cp.clock;
    var pods := cp.ListPodsNamed(ns, name);
    while pods.Ok? && !AllRunning(pods.value) && cp.clock - start <= 300
      invariant cp.Valid() && cp.nextVersion == old(cp.nextVersion)
      invariant OnlyPurged(old(cp.namespaces), cp.namespaces)
      invariant ns in old(cp.namespaces) && old(cp.namespaces)[ns].terminatingUntil.None? ==>
        ns in cp.namespaces && cp.namespaces[ns] == old(cp.namespaces)[ns]
      invariant start <= cp.clock <= start + 305
      invariant pods == cp.ListPodsNamed(ns, name)
      invariant cp.Fault(PodList).None? && (ns !in old(cp.namespaces) || name !in old(cp.namespaces)[ns].pods) ==>
        pods == Ok([]) && cp.clock == start
      invariant cp.Fault(PodList).Some? ==> cp.clock == start && cp.namespaces == old(cp.namespaces)
      decreases start + 305 - cp.clock
    {
      cp.Sleep(5);
      pods := cp.ListPodsNamed(ns, name);
    }
    if pods.Err? {
      r := Failed(ErrorMessage(pods.error));
    } else if AllRunning(pods.value) {
      var _ := AddLabelsToStatefulSet(cp, ns, name, StatusLabels(clusterId));
      r := Ready;
    } else {
      r := TimedOut;
    }
  }

  /** The replica count `start_cluster_usecase` leaves: a stopped cluster gets one replica. */
  function ReplicasAfterStart(replicas: int): int {
    if replicas >= 1 then replicas else if replicas == 0 then 1 else replicas
  }

  function StartMessage(replicas: int): string {
    if replicas >= 1 then "cluster already started" else "cluster starting"
  }

  /** The replica count `stop_vcluster_usecase` leaves: a running cluster gets none. */
  function ReplicasAfterStop(replicas: int): int {
    if replicas == 0 then 0 else if replicas >= 1 then 0 else replicas
  }

  function StopMessage(replicas: int): string {
    if replicas == 0 then "cluster already stopped" else "cluster stopping"
  }

  /**
   * Start and stop toggle a non-negative replica count: starting twice is
   * starting once and the second start reports "cluster already started";
   * stopping twice is stopping once and reports "cluster already stopped";
   * stop then start leaves exactly one replica, start then stop none.
   */
  lemma {:induction false} StartStopToggle(replicas: int)
    requires replicas >= 0
    ensures ReplicasAfterStart(replicas) >= 1 && ReplicasAfterStop(replicas) == 0
    ensures ReplicasAfterStart(ReplicasAfterStart(replicas)) == ReplicasAfterStart(replicas)
    ensures StartMessage(ReplicasAfterStart(replicas)) == "cluster already started"
    ensures ReplicasAfterStop(ReplicasAfterStop(replicas)) == 0
    ensures StopMessage(ReplicasAfterStop(replicas)) == "cluster already stopped"
    ensures ReplicasAfterStart(ReplicasAfterStop(replicas)) == 1
    ensures ReplicasAfterStop(ReplicasAfterStart(replicas)) == 0
  {
  }

  /** A negative replica count is left alone, yet both handlers report a change in progress. */
  lemma NegativeReplicasUntouched(replicas: int)
    requires replicas < 0
    ensures ReplicasAfterStart(replicas) == replicas && StartMessage(replicas) == "cluster starting"
    ensures ReplicasAfterStop(replicas) == replicas && StopMessage(replicas) == "cluster stopping"
  {
  }

  /** The namespace map once the StatefulSet `name` in `ns` holds `sts`. */
  function WithStatefulSet(m: map<string, Namespace>, ns: string, name: string, sts: StatefulSet): map<string, Namespace>
    requires ns in m
  {
    m[ns := m[ns].(statefulSets := m[ns].statefulSets[name := sts])]
  }

  /**
   * `start_cluster_usecase`: a StatefulSet with no replicas is given one and
   * written back; any other count is left alone.
   */
  method StartCluster(cp: ControlPlane, name: string) returns (r: Result<string, Failure>)
    requires cp.Valid()
    modifies cp
    ensures cp.Valid() && cp.clock == old(cp.clock)
    ensures var read := old(cp.ReadStatefulSet(NamespaceFor(name), name));
      && (read.Err? ==> r == Err(ServerError(ErrorText(read.error))) && cp.namespaces == old(cp.namespaces))
      && (read.Ok? && read.value.replicas != 0 ==> r == Ok(StartMessage(read.value.replicas)) && cp.namespaces == old(cp.namespaces))
      && (read.Ok? && read.value.replicas == 0 && cp.Fault(StatefulSetReplace).Some? ==>
            r == Err(ServerError(ErrorText(cp.Fault(StatefulSetReplace).value))) && cp.namespaces == old(cp.namespaces))
      && (read.Ok? && read.value.replicas == 0 && cp.Fault(StatefulSetReplace).None? ==>
            r == Ok(StartMessage(0)) &&
            cp.namespaces == WithStatefulSet(old(cp.namespaces), NamespaceFor(name), name,
              read.value.(replicas := ReplicasAfterStart(0), resourceVersion := old(cp.nextVersion))))
  {
    var ns := NamespaceFor(name);
    var read := cp.ReadStatefulSet(ns, name);
    if read.Err? {
      return Err(ServerError(ErrorText(read.error)));
    }
    var sts := read.value;
    if sts.replicas >= 1 {
      return Ok("cluster already started");
    } else if sts.replicas == 0 {
      var written := cp.WriteStatefulSet(StatefulSetReplace, ns, name, sts.(replicas := 1));
      if written.Err? {
        return Err(ServerError(ErrorText(written.error)));
      }
    }
    r := Ok("cluster starting");
  }

  /** `stop_vcluster_usecase`: mirrors StartCluster, setting a running StatefulSet's replicas to 0. */
  method StopCluster(cp: ControlPlane, name: string) returns (r: Result<string, Failure>)
    requires cp.Valid()
    modifies cp
    ensures cp.Valid() && cp.clock == old(cp.clock)
    ensures var read := old(cp.ReadStatefulSet(NamespaceFor(name), name));
      && (read.Err? ==> r == Err(ServerError(ErrorText(read.error))) && cp.namespaces == old(cp.namespaces))
      && (read.Ok? && read.value.replicas < 1 ==> r == Ok(StopMessage(read.value.replicas)) && cp.namespaces == old(cp.namespaces))
      && (read.Ok? && read.value.replicas >= 1 && cp.Fault(StatefulSetReplace).Some? ==>
            r == Err(ServerError(ErrorText(cp.Fault(StatefulSetReplace).value))) && cp.namespaces == old(cp.namespaces))
      && (read.Ok? && read.value.replicas >= 1 && cp.Fault(StatefulSetReplace).None? ==>
            r == Ok(StopMessage(read.value.replicas)) &&
            cp.namespaces == WithStatefulSet(old(cp.namespaces), NamespaceFor(name), name,
              read.value.(replicas := ReplicasAfterStop(read.value.replicas), resourceVersion := old(cp.nextVersion))))
  {
    var ns := NamespaceFor(name);
    var read := cp.ReadStatefulSet(ns, name);
    if read.Err? {
      return Err(ServerError(ErrorText(read.error)));
    }
    var sts := read.value;
    if sts.replicas == 0 {
      return Ok("cluster already stopped");
    } else if sts.replicas >= 1 {
      var written := cp.WriteStatefulSet(StatefulSetReplace, ns, name, sts.(replicas := 0));
      if written.Err? {
        return Err(ServerError(ErrorText(written.error)));
      }
    }
    r := Ok("cluster stopping");
  }

  /** `delete_vcluster_usecase`: deletes the cluster's namespace and answers 204. */
  method DeleteCluster(cp: ControlPlane, name: string) returns (r: Result<(int, string), Failure>)
    requires cp.Valid()
    modifies cp
    ensures cp.Valid() && cp.clock == old(cp.clock)
    ensures r.Ok? <==> cp.Fault(NamespaceDelete).None? && NamespaceFor(name) in old(cp.namespaces)
    ensures r.Ok? ==> r.value == (204, "cluster deleted") &&
                      NamespaceFor(name) in cp.namespaces && cp.namespaces[NamespaceFor(name)].terminatingUntil.Some?
    ensures r.Err? ==> cp.namespaces == old(cp.namespaces)
    ensures OnlyPurgedBesides(old(cp.namespaces), cp.namespaces, NamespaceFor(name))
  {
    var deleted := cp.DeleteNamespace(NamespaceFor(name));
    if deleted.Err? {
      return Err(ServerError(ErrorText(deleted.error)));
    }
    r := Ok((204, "cluster deleted"));
  }

  /** The names of the quotas `qs`, in order. */
  function Names(qs: seq<Quota>): (r: seq<Json>)
    ensures |r| == |qs| && forall i :: 0 <= i < |qs| ==> r[i] == qs[i].name
  {
    seq(|qs|, i requires 0 <= i < |qs| => qs[i].name)
  }

  /** The quotas of `qs` whose name is not among `deleted`. */
  function Surviving(qs: seq<Quota>, deleted: seq<Json>): seq<Quota> {
    if qs == [] then []
    else if qs[0].name in deleted then Surviving(qs[1..], deleted)
    else [qs[0]] + Surviving(qs[1..], deleted)
  }

  /** Deleting one more name removes its quotas from the survivors. */
  lemma {:induction false} SurvivingStep(qs: seq<Quota>, deleted: seq<Json>, name: Json)
    ensures Surviving(qs, deleted + [name]) == WithoutQuota(Surviving(qs, deleted), name)
  {
    if qs != [] {
      SurvivingStep(qs[1..], deleted, name);
    }
  }

  /** Deleting a name no quota has changes nothing. */
  lemma {:induction false} WithoutAbsentQuota(qs: seq<Quota>, name: Json)
    requires !HasQuota(qs, name)
    ensures WithoutQuota(qs, name) == qs
  {
    if qs != [] {
      assert qs[0].name != name;
      assert forall i :: 0 <= i < |qs[1..]| ==> qs[1..][i] == qs[i + 1];
      WithoutAbsentQuota(qs[1..], name);
      assert qs == [qs[0]] + qs[1..];
    }
  }

  /** Deleting every name of `qs` leaves none of them. */
  lemma {:induction false} SurvivingAllDeleted(qs: seq<Quota>, deleted: seq<Json>)
    requires forall i :: 0 <= i < |qs| ==> qs[i].name in deleted
    ensures Surviving(qs, deleted) == []
  {
    if qs != [] {
      assert forall i :: 0 <= i < |qs[1..]| ==> qs[1..][i] == qs[i + 1];
      SurvivingAllDeleted(qs[1..], deleted);
    }
  }

  lemma {:induction false} SurvivingConcat(a: seq<Quota>, b: seq<Quota>, deleted: seq<Json>)
    ensures Surviving(a + b, deleted) == Surviving(a, deleted) + Surviving(b, deleted)
  {
    if a == [] {
      assert a + b == b;
    } else {
      assert (a + b)[0] == a[0];
      assert (a + b)[1..] == a[1..] + b;
      SurvivingConcat(a[1..], b, deleted);
    }
  }

  /** Deleting nothing keeps every quota. */
  lemma {:induction false} SurvivingNothingDeleted(qs: seq<Quota>)
    ensures Surviving(qs, []) == qs
  {
    if qs != [] {
      SurvivingNothingDeleted(qs[1..]);
      assert qs == [qs[0]] + qs[1..];
    }
  }

  /**
   * Deleting every quota listed before the new one was created leaves the new
   * quota alone, provided its name was not among them.
   */
  lemma PlanUpgradeLeavesOnlyNewQuota(listed: seq<Quota>, q: Quota)
    requires !HasQuota(listed, q.name)
    ensures Surviving(listed + [q], Names(listed)) == [q]
  {
    SurvivingConcat(listed, [q], Names(listed));
    assert forall i :: 0 <= i < |Names(listed)| ==> Names(listed)[i] != q.name;
    SurvivingAllDeleted(listed, Names(listed));
    assert Surviving([q], Names(listed)) == [q] + Surviving([], Names(listed));
  }

  /** The namespace map once the quotas of `ns` are `qs`. */
  function WithQuotas(m: map<string, Namespace>, ns: string, qs: seq<Quota>): map<string, Namespace>
    requires ns in m
  {
    m[ns := m[ns].(quotas := qs)]
  }

  /** One deletion of the plan-upgrade loop: a failure, 404 or other, is reported and ignored. */
  method DeleteQuotaReportingErrors(cp: ControlPlane, ns: string, name: Json)
    requires cp.Valid() && ns in cp.namespaces
    modifies cp
    ensures cp.Valid() && cp.clock == old(cp.clock)
    ensures cp.namespaces == WithQuotas(old(cp.namespaces), ns,
      if cp.Fault(QuotaDelete).None? then WithoutQuota(old(cp.namespaces)[ns].quotas, name)
      else old(cp.namespaces)[ns].quotas)
  {
    var deleted := cp.DeleteQuota(ns, name);
    if deleted.Err? && cp.Fault(QuotaDelete).None? {
      WithoutAbsentQuota(old(cp.namespaces)[ns].quotas, name);
    }
  }

  /**
   * The deletion loop of `update_cluster_plan_usecase`: deletes each listed
   * quota by name, ignoring any failure.
   */
  method DeleteListedQuotas(cp: ControlPlane, ns: string, rqs: seq<Quota>, quota: Quota)
    requires cp.Valid()
    requires ns in cp.namespaces && cp.namespaces[ns].quotas == rqs + [quota]
    requires !HasQuota(rqs, quota.name)
    modifies cp
    ensures cp.Valid() && cp.clock == old(cp.clock)
    ensures cp.namespaces == WithQuotas(old(cp.namespaces), ns,
      if cp.Fault(QuotaDelete).None? then [quota] else rqs + [quota])
  {
    ghost var start := rqs + [quota];
    ghost var remaining := start;
    ghost var faulty := cp.Fault(QuotaDelete).Some?;
    assert Names(rqs[..0]) == [];
    SurvivingNothingDeleted(start);
    for i := 0 to |rqs|
      invariant cp.Valid() && cp.clock == old(cp.clock)
      invariant ns in cp.namespaces && cp.namespaces == WithQuotas(old(cp.namespaces), ns, remaining)
      invariant faulty ==> remaining == start
      invariant !faulty ==> remaining == Surviving(start, Names(rqs[..i]))
    {
      NamesSnoc(rqs, i);
      ghost var before := cp.namespaces;
      DeleteQuotaReportingErrors(cp, ns, rqs[i].name);
      WithQuotasTwice(old(cp.namespaces), ns, remaining, cp.namespaces[ns].quotas);
      if !faulty {
        SurvivingStep(start, Names(rqs[..i]), rqs[i].name);
        remaining := WithoutQuota(remaining, rqs[i].name);
      }
    }
    assert rqs[..|rqs|] == rqs;
    if !faulty {
      PlanUpgradeLeavesOnlyNewQuota(rqs, quota);
    }
  }

  lemma NamesSnoc(qs: seq<Quota>, i: nat)
    requires i < |qs|
    ensures Names(qs[..i + 1]) == Names(qs[..i]) + [qs[i].name]
  {
  }

  /** Setting the quotas of a namespace twice keeps the second setting. */
  lemma WithQuotasTwice(m: map<string, Namespace>, ns: string, first: seq<Quota>, second: seq<Quota>)
    requires ns in m
    ensures WithQuotas(WithQuotas(m, ns, first), ns, second) == WithQuotas(m, ns, second)
  {
  }

  /**
   * `update_cluster_plan_usecase`: lists the quotas of the cluster's
   * namespace, creates the quota of the new plan, then deletes each quota
   * that was listed; a failed delete is reported and skipped.
   */
  method UpdateClusterPlan(cp: ControlPlane, cluster: string, subscription: map<string, Json>) returns (r: Result<string, Failure>)
    requires cp.Valid()
    modifies cp
    ensures cp.Valid() && cp.clock == old(cp.clock)
    ensures ParseSubscriptionJson(subscription).Err? ==>
      r == Err(ServerError("'" + ParseSubscriptionJson(subscription).error.key + "'")) && cp.namespaces == old(cp.namespaces)
    ensures r.Err? ==> cp.namespaces == old(cp.namespaces)
    ensures ParseSubscriptionJson(subscription).Ok? ==>
      var quota := ResourceQuotaFor(ParseSubscriptionJson(subscription).value, NamespaceFor(cluster));
      && (r.Ok? <==> cp.Fault(QuotaList).None? && cp.Fault(QuotaCreate).None? && old(cp.Admits(NamespaceFor(cluster))).Ok? &&
                     !HasQuota(old(cp.namespaces)[NamespaceFor(cluster)].quotas, quota.name))
      && (r.Ok? ==> (r.value == "vcluster plan upgraded successfully" &&
            cp.namespaces == WithQuotas(old(cp.namespaces), NamespaceFor(cluster),
              if cp.Fault(QuotaDelete).None? then [quota]
              else old(cp.namespaces)[NamespaceFor(cluster)].quotas + [quota])))
  {
    var ns := NamespaceFor(cluster);
    var parsed := ParseSubscriptionJson(subscription);
    if parsed.Err? {
      return Err(ServerError("'" + parsed.error.key + "'"));
    }
    var quota := ResourceQuotaFor(parsed.value, ns);
    var listed := cp.ListQuotas(ns);
    if listed.Err? {
      return Err(ServerError(ErrorText(listed.error)));
    }
    var created := cp.CreateQuota(ns, quota);
    if created.Err? {
      return Err(ServerError(ErrorText(created.error)));
    }
    DeleteListedQuotas(cp, ns, listed.value, quota);
    r := Ok("vcluster plan upgraded successfully");
  }

  /** The create-cluster event: the cluster's name and id, its host cluster, version and plan document. */
  datatype CreateRequest = CreateRequest(
    name: string,
    clusterId: string,
    hostClusterName: string,
    kubeVersion: string,
    subscription: map<string, Json>)

  /** The public host of a cluster: "<name>.<host cluster>.<domain>". */
  function HostFor(name: string, hostClusterName: string, domain: string): string {
    name + "." + hostClusterName + "." + domain
  }

  /** A live namespace holding the Cluster, the VCluster and the quota of one cluster, and what its controller made. */
  ghost predicate Staged(n: Namespace, name: string, custom: ClusterObject, vcluster: VCluster, quota: Quota) {
    n.terminatingUntil.None? &&
    n.clusters == map[name := custom] &&
    n.vclusters.Keys == {name} && n.vclusters[name].(resourceVersion := None) == vcluster &&
    n.quotas == [quota] &&
    name in n.services && name in n.statefulSets && name + "-0" in n.pods
  }

  /** The objects of a namespace provisioned for one cluster: the staged ones and the Ingress. */
  ghost predicate Provisioned(n: Namespace, name: string, custom: ClusterObject, vcluster: VCluster, quota: Quota) {
    Staged(n, name, custom, vcluster, quota) && n.ingresses == {name}
  }

  /** No fault on the calls that stage a cluster's objects: namespace, Cluster, VCluster and quota. */
  predicate StagingCallsSucceed(cp: ControlPlane)
    reads cp
  {
    cp.Fault(NamespaceRead).None? && cp.Fault(NamespaceDelete).None? && cp.Fault(NamespaceCreate).None? &&
    cp.Fault(ClusterCreate).None? && cp.Fault(VClusterCreate).None? && cp.Fault(QuotaCreate).None?
  }

  /** The first four steps of the create path: the namespace, the Cluster, the VCluster and the quota. */
  method StageObjects(cp: ControlPlane, ns: string, name: string, custom: ClusterObject, vcluster: VCluster, quota: Quota)
    returns (r: Result<(), ApiError>)
    requires cp.Valid()
    requires custom.name == name && vcluster.name == name && vcluster.resourceVersion.None?
    modifies cp
    ensures cp.Valid()
    ensures OnlyPurgedBesides(old(cp.namespaces), cp.namespaces, ns)
    ensures r.Ok? ==> ns in cp.namespaces && Staged(cp.namespaces[ns], name, custom, vcluster, quota) &&
                      cp.namespaces[ns].ingresses == {} &&
                      cp.namespaces[ns].services[name] == cp.clock + cp.serviceDelay
    ensures StagingCallsSucceed(cp) ==> r.Ok?
  {
    r := CreateNamespace(cp, ns);
    if r.Err? {
      return;
    }
    ghost var before := old(cp.namespaces);
    ghost var staged := cp.namespaces;
    r := cp.CreateClusterObject(ns, custom);
    if r.Err? {
      return;
    }
    assert cp.namespaces[ns] == EmptyNamespace.(clusters := map[name := custom]);
    KeepsOthers(before, staged, ns, cp.namespaces[ns]);
    staged := cp.namespaces;
    r := cp.CreateVCluster(ns, vcluster);
    if r.Err? {
      return;
    }
    assert cp.namespaces[ns].quotas == [] && cp.namespaces[ns].ingresses == {};
    KeepsOthers(before, staged, ns, cp.namespaces[ns]);
    staged := cp.namespaces;
    r := cp.CreateQuota(ns, quota);
    if r.Ok? {
      KeepsOthers(before, staged, ns, cp.namespaces[ns]);
    }
  }

  /** Replacing one namespace keeps what the rest of the cluster was. */
  lemma KeepsOthers(before: map<string, Namespace>, after: map<string, Namespace>, ns: string, n: Namespace)
    requires OnlyPurgedBesides(before, after, ns)
    ensures OnlyPurgedBesides(before, after[ns := n], ns)
  {
  }

  /**
   * The create path of `create_cluster_usecase`, taken when no VCluster of
   * that name exists: recreate the namespace, then the Cluster, the VCluster
   * and the quota, wait for the Service, add the Ingress and wait for the
   * pods. The outcome of the readiness wait does not affect the reply.
   */
  method ProvisionNew(cp: ControlPlane, ns: string, name: string, clusterId: string,
                      custom: ClusterObject, vcluster: VCluster, quota: Quota, polls: nat)
    returns (r: Result<string, Failure>)
    requires cp.Valid()
    requires custom.name == name && vcluster.name == name && vcluster.resourceVersion.None?
    modifies cp
    ensures cp.Valid()
    ensures OnlyPurgedBesides(old(cp.namespaces), cp.namespaces, ns)
    ensures r.Ok? ==> r.value == "vcluster created successfully" &&
                      ns in cp.namespaces && Provisioned(cp.namespaces[ns], name, custom, vcluster, quota)
    ensures r.Err? ==> r.error.ServerError? || r.error.StillWaiting?
    ensures (StagingCallsSucceed(cp) && cp.Fault(ServiceRead).None? && cp.Fault(IngressCreate).None? &&
             polls > 0 && cp.serviceDelay <= 5 * (polls - 1)) ==> r.Ok?
  {
    var added := StageObjects(cp, ns, name, custom, vcluster, quota);
    if added.Err? {
      return Err(ServerError(ErrorText(added.error)));
    }
    ghost var staged := cp.namespaces;
    r := ExposeAndAwait(cp, ns, name, clusterId, custom, vcluster, quota, polls);
    PurgedBesidesChain(old(cp.namespaces), staged, cp.namespaces, ns);
  }

  /**
   * The last steps of the create path on staged objects: await the Service,
   * create the Ingress and await the pods.
   */
  method ExposeAndAwait(cp: ControlPlane, ns: string, name: string, clusterId: string,
                        custom: ClusterObject, vcluster: VCluster, quota: Quota, polls: nat)
    returns (r: Result<string, Failure>)
    requires cp.Valid()
    requires ns in cp.namespaces && Staged(cp.namespaces[ns], name, custom, vcluster, quota)
    requires cp.namespaces[ns].ingresses == {} && cp.namespaces[ns].services[name] == cp.clock + cp.serviceDelay
    modifies cp
    ensures cp.Valid()
    ensures OnlyPurgedBesides(old(cp.namespaces), cp.namespaces, ns)
    ensures r.Ok? ==> r.value == "vcluster created successfully" &&
                      ns in cp.namespaces && Provisioned(cp.namespaces[ns], name, custom, vcluster, quota)
    ensures r.Err? ==> r.error.ServerError? || r.error.StillWaiting?
    ensures (cp.Fault(ServiceRead).None? && cp.Fault(IngressCreate).None? &&
             polls > 0 && cp.serviceDelay <= 5 * (polls - 1)) ==> r.Ok?
  {
    var waited := WaitForServiceCreation(cp, ns, name, polls);
    if waited.Raised? {
      return Err(ServerError(ErrorText(waited.error)));
    }
    if waited == OutOfPolls {
      return Err(StillWaiting);
    }
    assert cp.namespaces[ns] == old(cp.namespaces)[ns];
    var added := cp.CreateIngress(ns, name);
    if added.Err? {
      return Err(ServerError(ErrorText(added.error)));
    }
    ghost var exposed := cp.namespaces;
    assert Provisioned(exposed[ns], name, custom, vcluster, quota);
    var _ := WaitForStsPodReadiness(cp, ns, name, clusterId);
    ProvisionedWithoutPodChanges(exposed[ns], cp.namespaces[ns], name, custom, vcluster, quota);
    PurgedBesidesChain(old(cp.namespaces), exposed, cp.namespaces, ns);
    r := Ok("vcluster created successfully");
  }

  /** Rolling pods over keeps a namespace provisioned. */
  lemma ProvisionedWithoutPodChanges(before: Namespace, after: Namespace, name: string,
                                     custom: ClusterObject, vcluster: VCluster, quota: Quota)
    requires Provisioned(before, name, custom, vcluster, quota)
    requires after == before.(statefulSets := after.statefulSets) && after.statefulSets.Keys == before.statefulSets.Keys
    ensures Provisioned(after, name, custom, vcluster, quota)
  {
  }

  lemma PurgedBesidesChain(a: map<string, Namespace>, b: map<string, Namespace>, c: map<string, Namespace>, ns: string)
    requires OnlyPurgedBesides(a, b, ns) && OnlyPurgedBesides(b, c, ns)
    ensures OnlyPurgedBesides(a, c, ns)
  {
  }

  /**
   * `create_cluster_usecase`. The plan is parsed before the `try`, so a
   * missing key escapes as KeyError. A VCluster that exists is replaced by
   * the desired one carrying the existing resourceVersion, and only the
   * Service is awaited; a 404 lookup takes the create path; any other error
   * ends in status 500.
   */
  method CreateClusterUseCase(cp: ControlPlane, req: CreateRequest, domain: string, polls: nat)
    returns (r: Result<string, Failure>)
    requires cp.Valid()
    modifies cp
    ensures cp.Valid()
    ensures OnlyPurgedBesides(old(cp.namespaces), cp.namespaces, NamespaceFor(req.name))
    ensures ParseSubscriptionJson(req.subscription).Err? ==>
      r == Err(MissingKey(ParseSubscriptionJson(req.subscription).error.key)) &&
      cp.namespaces == old(cp.namespaces) && cp.clock == old(cp.clock)
    ensures ParseSubscriptionJson(req.subscription).Ok? ==>
      var ns := NamespaceFor(req.name);
      var desired := VClusterFor(req.name, ns, HostFor(req.name, req.hostClusterName, domain), req.kubeVersion);
      var lookup := old(cp.GetVCluster(ns, req.name));
      && (lookup.Err? && lookup.error.status != 404 ==>
            r == Err(ServerError(ErrorText(lookup.error))) && cp.namespaces == old(cp.namespaces))
      && (lookup.Ok? && lookup.value.resourceVersion.Some? && cp.Fault(VClusterReplace).None? && ns in cp.namespaces ==>
            cp.namespaces[ns] == old(cp.namespaces)[ns].(vclusters := old(cp.namespaces)[ns].vclusters[
              req.name := desired.(resourceVersion := Some(old(cp.nextVersion)))]))
      && (lookup.Ok? && r.Ok? ==> r.value == "vcluster updated successfully" && ns in cp.namespaces)
      && (lookup.Err? && r.Ok? ==>
            r.value == "vcluster created successfully" && ns in cp.namespaces &&
            Provisioned(cp.namespaces[ns], req.name, ClusterObjectFor(req.name, ns), desired,
                        ResourceQuotaFor(ParseSubscriptionJson(req.subscription).value, ns)))
    ensures ParseSubscriptionJson(req.subscription).Ok? ==>
      var ns := NamespaceFor(req.name);
      var lookup := old(cp.GetVCluster(ns, req.name));
      && (lookup.Err? && lookup.error.status == 404 && StagingCallsSucceed(cp) &&
          cp.Fault(ServiceRead).None? && cp.Fault(IngressCreate).None? &&
          polls > 0 && cp.serviceDelay <= 5 * (polls - 1) ==>
            r == Ok("vcluster created successfully"))
      && (lookup.Ok? && lookup.value.resourceVersion.Some? && cp.Fault(VClusterReplace).None? &&
          cp.Fault(ServiceRead).None? && old(cp.namespaces)[ns].terminatingUntil.None? &&
          req.name in old(cp.namespaces)[ns].services && polls > 0 &&
          old(cp.namespaces)[ns].services[req.name] <= old(cp.clock) + 5 * (polls - 1) ==>
            r == Ok("vcluster updated successfully"))
    ensures r.Err? && r.error.MissingKey? <==> ParseSubscriptionJson(req.subscription).Err?
  {
    var ns := NamespaceFor(req.name);
    var host := HostFor(req.name, req.hostClusterName, domain);
    var vcluster := VClusterFor(req.name, ns, host, req.kubeVersion);
    var custom := ClusterObjectFor(req.name, ns);
    var parsed := ParseSubscriptionJson(req.subscription);
    if parsed.Err? {
      return Err(MissingKey(parsed.error.key));
    }
    var quota := ResourceQuotaFor(parsed.value, ns);
    var existing := cp.GetVCluster(ns, req.name);
    if existing.Err? && existing.error.status != 404 {
      return Err(ServerError(ErrorText(existing.error)));
    }
    if existing.Ok? {
      var replaced := cp.ReplaceVCluster(ns, req.name, vcluster.(resourceVersion := existing.value.resourceVersion));
      if replaced.Err? {
        return Err(ServerError(ErrorText(replaced.error)));
      }
      var waited := WaitForServiceCreation(cp, ns, req.name, polls);
      if waited.Raised? {
        return Err(ServerError(ErrorText(waited.error)));
      }
      if waited == OutOfPolls {
        return Err(StillWaiting);
      }
      return Ok("vcluster updated successfully");
    }
    r := ProvisionNew(cp, ns, req.name, req.clusterId, custom, vcluster, quota, polls);
  }
}
