/**
 * The status controller: for every pod of a virtual cluster it derives one
 * status string from the pod's container states and reports it with the
 * cluster's id; a key whose sync failed is retried at most five times; a
 * node is classified by its Ready condition.
 *
 * The informers, the work queue's rate limiter, its goroutines and the
 * HTTP patch are outside the model; a pod lookup comes in as a value.
 */
module ClusterStatus {
  import opened Wrappers

  /** The state of one container: which of Waiting, Running and Terminated is set. */
  datatype ContainerState = Waiting(reason: string) | Running | Terminated | NoState

  /** The waiting reasons that hit an empty case of the switch and change nothing. */
  predicate Ignored(s: ContainerState) {
    s.Waiting? && s.reason in {"ImagePullBackOff", "OOMKilled", "ContainerConfigError"}
  }

  /** The status after looking at one more container, `prev` being the status so far. */
  function Step(prev: string, s: ContainerState): (r: string)
    ensures Ignored(s) ==> r == prev
    ensures !Ignored(s) ==> r in {"CrashLoopBackOff", "Pending", "Running", "Stopped", "Failed"}
    ensures r == "Failed" <==> s.NoState? || (Ignored(s) && prev == "Failed")
    ensures s.Running? ==> r == "Running"
    ensures s.Terminated? ==> r == "Stopped"
    ensures s == Waiting("CrashLoopBackOff") ==> r == "CrashLoopBackOff"
    ensures s.Waiting? && !Ignored(s) && s.reason != "CrashLoopBackOff" ==> r == "Pending"
  {
    match s
    case Waiting(reason) =>
      if reason in {"ImagePullBackOff", "OOMKilled", "ContainerConfigError"} then prev
      else if reason == "CrashLoopBackOff" then reason
      else "Pending"
    case Running => "Running"
    case Terminated => "Stopped"
    case NoState => "Failed"
  }

  /** The status string the loop leaves after the containers `cs`, starting from "". */
  function DeriveStatus(cs: seq<ContainerState>): string
  {
    if cs == [] then "" else Step(DeriveStatus(cs[..|cs| - 1]), cs[|cs| - 1])
  }

  /** The loop over the pod's container statuses. */
  method ContainerStatus(cs: seq<ContainerState>) returns (status: string)
    ensures status == DeriveStatus(cs)
  {
    status := "";
    for i := 0 to |cs|
      invariant status == DeriveStatus(cs[..i])
    {
      assert cs[..i + 1][..i] == cs[..i];
      status := Step(status, cs[i]);
    }
    assert cs[..|cs|] == cs;
  }

  /** An independent reading: the status set by the last container not ignored, or "". */
  function LastDeciding(cs: seq<ContainerState>): (r: Option<nat>)
    ensures r.Some? ==> r.value < |cs| && !Ignored(cs[r.value])
    ensures r.Some? ==> forall k :: r.value < k < |cs| ==> Ignored(cs[k])
    ensures r.None? ==> forall k :: 0 <= k < |cs| ==> Ignored(cs[k])
  {
    if cs == [] then None
    else if !Ignored(cs[|cs| - 1]) then Some(|cs| - 1)
    else LastDeciding(cs[..|cs| - 1])
  }

  /**
   * The derived status is the one the last deciding container gives on its
   * own, and "" when every container is in an ignored waiting state.
   */
  lemma {:induction false} StatusFromLastDeciding(cs: seq<ContainerState>)
    ensures LastDeciding(cs).None? ==> DeriveStatus(cs) == ""
    ensures LastDeciding(cs).Some? ==> DeriveStatus(cs) == Step("", cs[LastDeciding(cs).value])
  {
    if cs != [] {
      var init := cs[..|cs| - 1];
      StatusFromLastDeciding(init);
      if Ignored(cs[|cs| - 1]) {
        assert LastDeciding(cs) == LastDeciding(init);
        if LastDeciding(init).Some? {
          assert init[LastDeciding(init).value] == cs[LastDeciding(init).value];
        }
      }
    }
  }

  /** The status is one of the five the switch assigns, or "". */
  lemma {:induction false} StatusIsKnown(cs: seq<ContainerState>)
    ensures DeriveStatus(cs) in {"", "CrashLoopBackOff", "Pending", "Running", "Stopped", "Failed"}
  {
    if cs != [] {
      StatusIsKnown(cs[..|cs| - 1]);
    }
  }

  /** An ignored container leaves the status as it was; a pod without containers reports "". */
  lemma IgnoredKeepsStatus(cs: seq<ContainerState>, reason: string)
    requires reason in {"ImagePullBackOff", "OOMKilled", "ContainerConfigError"}
    ensures DeriveStatus(cs + [Waiting(reason)]) == DeriveStatus(cs)
    ensures DeriveStatus([]) == ""
    ensures DeriveStatus([Waiting("OOMKilled")]) == ""
    ensures DeriveStatus([Running, Waiting("ImagePullBackOff")]) == "Running"
    ensures DeriveStatus([Waiting("ErrImagePull"), Terminated]) == "Stopped"
  {
    assert (cs + [Waiting(reason)])[..|cs|] == cs;
    assert [Running, Waiting("ImagePullBackOff")][..1] == [Running];
    assert [Waiting("ErrImagePull"), Terminated][..1] == [Waiting("ErrImagePull")];
  }

  /** A pod as the informer's cache holds it. */
  datatype Pod = Pod(name: string, labels: map<string, string>, containers: seq<ContainerState>)

  /** What `patchClusterStatus` sends: the pod's name, the cluster id and the status. */
  datatype Report = Report(name: string, id: string, status: string)

  /** The body of the PATCH request, with its fixed "Node" entry. */
  function Payload(r: Report): (body: map<string, string>)
    ensures body.Keys == {"name", "id", "status", "Node"} && body["Node"] == "Node1"
    ensures body["name"] == r.name && body["id"] == r.id && body["status"] == r.status
  {
    map["name" := r.name, "id" := r.id, "status" := r.status, "Node" := "Node1"]
  }

  /** Go's `labels[key]`: the empty string for a missing key. */
  function Label(labels: map<string, string>, key: string): string {
    if key in labels then labels[key] else ""
  }

  /**
   * The report `syncToStdout` sends for a pod: only for a pod labelled as
   * managed by the cluster manager, and only when it carries the cluster id
   * label; the range over the labels meets that key at most once.
   */
  function ReportFor(pod: Pod): (r: Option<Report>)
    ensures r.Some? <==> Label(pod.labels, "status-controller-vcluster") == "cluster-manager" &&
                         "status-controller" in pod.labels
    ensures r.Some? ==> r.value == Report(pod.name, pod.labels["status-controller"], DeriveStatus(pod.containers))
  {
    if Label(pod.labels, "status-controller-vcluster") == "cluster-manager" && "status-controller" in pod.labels then
      Some(Report(pod.name, pod.labels["status-controller"], DeriveStatus(pod.containers)))
    else None
  }

  /** What looking a key up in the informer's cache gives. */
  datatype Lookup = Found(pod: Pod) | Gone | FetchError

  /** The outcome of `syncToStdout`: whether it failed, and the report it sent. */
  datatype SyncOutcome = SyncOutcome(failed: bool, report: Option<Report>)

  /**
   * `syncToStdout`. Only a failed cache lookup is an error: a deleted pod
   * and a failed patch are not, so a patch that fails is never retried.
   */
  function Sync(lookup: Lookup): (o: SyncOutcome)
    ensures o.failed <==> lookup.FetchError?
    ensures o.report.Some? ==> lookup.Found? && o.report == ReportFor(lookup.pod)
    ensures lookup.Found? ==> o.report == ReportFor(lookup.pod)
  {
    match lookup
    case Found(pod) => SyncOutcome(false, ReportFor(pod))
    case Gone => SyncOutcome(false, None)
    case FetchError => SyncOutcome(true, None)
  }

  /** Only the manager's pods are reported, whatever their other labels. */
  lemma ReportExamples(cs: seq<ContainerState>)
    ensures ReportFor(Pod("c-0", map["status-controller" := "42"], cs)).None?
    ensures ReportFor(Pod("c-0", map["status-controller-vcluster" := "cluster-manager"], cs)).None?
    ensures ReportFor(Pod("c-0", map["status-controller-vcluster" := "cluster-manager", "status-controller" := "42"], cs))
              == Some(Report("c-0", "42", DeriveStatus(cs)))
  {
  }

  /** The retry budget of a key. */
  const MaxRequeues := 5

  /** The work queue's bookkeeping for failed keys. */
  datatype RetryState = RetryState(requeues: map<string, nat>, requeued: seq<string>, dropped: seq<string>)

  /** `NumRequeues(key)`: zero for a key that was forgotten or never re-added. */
  function NumRequeues(st: RetryState, key: string): nat {
    if key in st.requeues then st.requeues[key] else 0
  }

  /**
   * `handleErr(err, key)`: a success forgets the key's history; a failure
   * re-adds the key while it has been re-added fewer than five times, and
   * otherwise forgets the key and drops it.
   */
  function HandleErrSpec(st: RetryState, failed: bool, key: string): (next: RetryState)
    ensures !failed ==> key !in next.requeues && next.requeued == st.requeued && next.dropped == st.dropped
    ensures failed && NumRequeues(st, key) < MaxRequeues ==>
              NumRequeues(next, key) == NumRequeues(st, key) + 1 &&
              next.requeued == st.requeued + [key] && next.dropped == st.dropped
    ensures failed && NumRequeues(st, key) >= MaxRequeues ==>
              key !in next.requeues && next.requeued == st.requeued && next.dropped == st.dropped + [key]
    ensures forall k :: k != key ==> NumRequeues(next, k) == NumRequeues(st, k)
  {
    if !failed then st.(requeues := st.requeues - {key})
    else if NumRequeues(st, key) < MaxRequeues then
      st.(requeues := st.requeues[key := NumRequeues(st, key) + 1], requeued := st.requeued + [key])
    else st.(requeues := st.requeues - {key}, dropped := st.dropped + [key])
  }

  /** The outcomes of successive syncs of one key, applied in order. */
  function Replay(st: RetryState, outcomes: seq<bool>, key: string): RetryState
    decreases |outcomes|
  {
    if outcomes == [] then st else Replay(HandleErrSpec(st, outcomes[0], key), outcomes[1..], key)
  }

  function Repeat(key: string, n: nat): (r: seq<string>)
    ensures |r| == n && forall i :: 0 <= i < n ==> r[i] == key
  {
    if n == 0 then [] else Repeat(key, n - 1) + [key]
  }

  function Failures(n: nat): (r: seq<bool>)
    ensures |r| == n && forall i :: 0 <= i < n ==> r[i]
  {
    if n == 0 then [] else [true] + Failures(n - 1)
  }

  /** `n` failures in a row, within the budget, re-add the key `n` times. */
  lemma {:induction false} FailuresWithinBudget(st: RetryState, key: string, n: nat)
    requires NumRequeues(st, key) + n <= MaxRequeues
    ensures var end := Replay(st, Failures(n), key);
            && NumRequeues(end, key) == NumRequeues(st, key) + n
            && end.requeued == st.requeued + Repeat(key, n)
            && end.dropped == st.dropped
    decreases n
  {
    if n > 0 {
      var next := HandleErrSpec(st, true, key);
      assert Failures(n)[1..] == Failures(n - 1);
      FailuresWithinBudget(next, key, n - 1);
      assert Repeat(key, n) == [key] + Repeat(key, n - 1) by {
        assert forall i :: 0 <= i < n ==> Repeat(key, n)[i] == ([key] + Repeat(key, n - 1))[i];
      }
    }
  }

  /**
   * A key whose sync keeps failing is processed six times: it is re-added
   * five times, and the sixth failure drops it and resets its budget.
   */
  lemma SixthFailureDrops(st: RetryState, key: string)
    requires key !in st.requeues
    ensures var end := Replay(st, Failures(6), key);
            && key !in end.requeues
            && end.requeued == st.requeued + Repeat(key, 5)
            && end.dropped == st.dropped + [key]
  {
    assert Failures(6) == Failures(5) + [true] by {
      assert forall i :: 0 <= i < 6 ==> Failures(6)[i] == (Failures(5) + [true])[i];
    }
    FailuresWithinBudget(st, key, 5);
    ReplayAppend(st, Failures(5), true, key);
  }

  /** Replaying one more outcome is one more `handleErr`. */
  lemma {:induction false} ReplayAppend(st: RetryState, outcomes: seq<bool>, last: bool, key: string)
    ensures Replay(st, outcomes + [last], key) == HandleErrSpec(Replay(st, outcomes, key), last, key)
    decreases |outcomes|
  {
    if outcomes != [] {
      assert (outcomes + [last])[1..] == outcomes[1..] + [last];
      ReplayAppend(HandleErrSpec(st, outcomes[0], key), outcomes[1..], last, key);
    }
  }

  /** The rate-limiting queue, as far as `handleErr` changes it. */
  class RetryQueue {
    var requeues: map<string, nat>
    var requeued: seq<string>
    var dropped: seq<string>

    constructor ()
      ensures requeues == map[] && requeued == [] && dropped == []
    {
      requeues := map[];
      requeued := [];
      dropped := [];
    }

    function State(): RetryState
      reads this
    {
      RetryState(requeues, requeued, dropped)
    }

    /** `handleErr`, with `failed` standing for a non-nil error. */
    method HandleErr(failed: bool, key: string)
      modifies this
      ensures State() == HandleErrSpec(old(State()), failed, key)
    {
      if !failed {
        requeues := requeues - {key};
        return;
      }
      var n := if key in requeues then requeues[key] else 0;
      if n < MaxRequeues {
        requeues := requeues[key := n + 1];
        requeued := requeued + [key];
        return;
      }
      requeues := requeues - {key};
      dropped := dropped + [key];
    }
  }

  /** A node condition: its type and its status. */
  datatype Condition = Condition(kind: string, status: string)

  /** The verdict of the first condition of type "Ready", or "Unknown" when there is none. */
  function NodeCondition(conds: seq<Condition>): (r: string)
    ensures r in {"Ready", "NotReady", "Unknown"}
    ensures r == "Unknown" <==> forall i :: 0 <= i < |conds| ==> conds[i].kind != "Ready"
  {
    if conds == [] then "Unknown"
    else if conds[0].kind == "Ready" then (if conds[0].status == "True" then "Ready" else "NotReady")
    else NodeCondition(conds[1..])
  }

  /** `getNodeCondition`: a scan that returns at the first Ready condition. */
  method GetNodeCondition(conds: seq<Condition>) returns (r: string)
    ensures r == NodeCondition(conds)
    ensures r != "Unknown" ==>
              (exists i :: 0 <= i < |conds| && conds[i].kind == "Ready" &&
                 (forall j :: 0 <= j < i ==> conds[j].kind != "Ready") &&
                 (r == "Ready" <==> conds[i].status == "True"))
  {
    for i := 0 to |conds|
      invariant forall j :: 0 <= j < i ==> conds[j].kind != "Ready"
      invariant NodeCondition(conds) == NodeCondition(conds[i..])
    {
      assert conds[i..][1..] == conds[i + 1..];
      if conds[i].kind == "Ready" {
        r := if conds[i].status == "True" then "Ready" else "NotReady";
        return;
      }
    }
    r := "Unknown";
  }

  /** Only the first Ready condition counts; a later one cannot override it. */
  lemma FirstReadyWins()
    ensures NodeCondition([Condition("Ready", "False"), Condition("Ready", "True")]) == "NotReady"
    ensures NodeCondition([Condition("MemoryPressure", "True"), Condition("Ready", "True")]) == "Ready"
    ensures NodeCondition([Condition("Ready", "Unknown")]) == "NotReady"
    ensures NodeCondition([]) == "Unknown"
  {
    assert [Condition("MemoryPressure", "True"), Condition("Ready", "True")][1..] == [Condition("Ready", "True")];
  }
}
