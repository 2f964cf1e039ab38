/**
 * Namespace recreation, the deletion wait and the StatefulSet label merge
 * of the cluster service, over the in-memory control plane.
 */
module ClusterUtils {
  import opened Wrappers
  import opened Text
  import opened KubeApi

  /** The text of an ApiException, abbreviated to its status. */
  function ErrorText(e: ApiError): string {
    "(" + IntToString(e.status) + ")"
  }

  /**
   * `wait_for_namespace_deletion`: reads the namespace every 5 seconds while
   * it still exists, returns once a read gives 404 and raises any other error.
   * The loop has no bound of its own; it ends because its only caller has just
   * deleted the namespace, whose deletion completes at a known tick.
   */
  method WaitForNamespaceDeletion(cp: ControlPlane, ns: string) returns (r: Result<(), ApiError>)
    requires cp.Valid()
    requires ns in cp.namespaces ==> cp.namespaces[ns].terminatingUntil.Some?
    modifies cp
    ensures cp.Valid() && cp.nextVersion == old(cp.nextVersion)
    ensures OnlyPurged(old(cp.namespaces), cp.namespaces)
    ensures r.Ok? <==> cp.Fault(NamespaceRead).None?
    ensures r.Err? ==> r.error == cp.Fault(NamespaceRead).value && cp.namespaces == old(cp.namespaces) && cp.clock == old(cp.clock)
    ensures r.Ok? ==> ns !in cp.namespaces
    ensures ns !in old(cp.namespaces) ==> cp.clock == old(cp.clock)
    ensures ns in old(cp.namespaces) && r.Ok? ==>
      old(cp.namespaces)[ns].terminatingUntil.value <= cp.clock <= old(cp.namespaces)[ns].terminatingUntil.value + 5
  {
    ghost var deadline := if ns in cp.namespaces then cp.namespaces[ns].terminatingUntil.value else cp.clock;
    ghost var present := ns in cp.namespaces;
    var read := cp.ReadNamespace(ns);
    while read.Ok?
      invariant cp.Valid() && cp.nextVersion == old(cp.nextVersion)
      invariant read == cp.ReadNamespace(ns)
      invariant OnlyPurged(old(cp.namespaces), cp.namespaces)
      invariant ns in cp.namespaces ==> present && cp.namespaces[ns] == old(cp.namespaces)[ns]
      invariant old(cp.clock) <= cp.clock <= deadline + 5
      invariant !present ==> cp.clock == old(cp.clock)
      invariant present && ns !in cp.namespaces ==> deadline <= cp.clock
      invariant cp.Fault(NamespaceRead).Some? ==> cp.namespaces == old(cp.namespaces) && cp.clock == old(cp.clock)
      decreases deadline + 5 - cp.clock
    {
      cp.Sleep(5);
      read := cp.ReadNamespace(ns);
    }
    if read.error.status == 404 {
      r := Ok(());
    } else {
      r := Err(read.error);
    }
  }

  function ErrorOf(r: Result<(), ApiError>): (e: Option<ApiError>)
    ensures e.Some? <==> r.Err?
    ensures r.Err? ==> e == Some(r.error)
  {
    match r
    case Ok(_) => None
    case Err(err) => Some(err)
  }

  /**
   * `createNamespace`: if the namespace exists it is deleted and the deletion
   * awaited; a 404 from the read, the delete or the wait means there is
   * nothing to delete; any other error is raised. Then the namespace is created.
   */
  method CreateNamespace(cp: ControlPlane, ns: string) returns (r: Result<(), ApiError>)
    requires cp.Valid()
    modifies cp
    ensures cp.Valid() && cp.nextVersion == old(cp.nextVersion)
    ensures OnlyPurgedBesides(old(cp.namespaces), cp.namespaces, ns)
    ensures r.Ok? ==> ns in cp.namespaces && cp.namespaces[ns] == EmptyNamespace
    ensures cp.Fault(NamespaceRead).None? && cp.Fault(NamespaceDelete).None? && cp.Fault(NamespaceCreate).None? ==> r.Ok?
    ensures r.Err? ==> r.error.status != 404
    ensures ns !in old(cp.namespaces) ==> cp.clock == old(cp.clock)
  {
    var failure: Option<ApiError> := None;
    var read := cp.ReadNamespace(ns);
    if read.Ok? {
      var deleted := cp.DeleteNamespace(ns);
      if deleted.Ok? {
        var waited := WaitForNamespaceDeletion(cp, ns);
        failure := ErrorOf(waited);
      } else {
        failure := Some(deleted.error);
      }
    } else {
      failure := Some(read.error);
    }
    if failure.Some? && failure.value.status != 404 {
      return Err(failure.value);
    }
    r := cp.CreateNamespace(ns);
  }

  /** The message `add_labels_to_statefulset` returns in place of raising. */
  function ErrorMessage(e: ApiError): (m: string)
    ensures StartsWith(m, "An error occurred: ")
  {
    assert ("An error occurred: " + ErrorText(e))[..|"An error occurred: "|] == "An error occurred: ";
    "An error occurred: " + ErrorText(e)
  }

  /** `dict.update`: the given labels overwrite, every other label is kept. */
  function MergeLabels(current: map<string, string>, labels: map<string, string>): (r: map<string, string>)
    ensures r.Keys == current.Keys + labels.Keys
    ensures forall k :: k in labels ==> r[k] == labels[k]
    ensures forall k :: k in current && k !in labels ==> r[k] == current[k]
  {
    current + labels
  }

  /** Merging is idempotent: applying the same labels twice changes nothing more. */
  lemma MergeLabelsIdempotent(current: map<string, string>, labels: map<string, string>)
    ensures MergeLabels(MergeLabels(current, labels), labels) == MergeLabels(current, labels)
  {
  }

  /**
   * `add_labels_to_statefulset`: reads the StatefulSet, merges the labels into
   * its pod-template labels and patches it back. It never raises: an error
   * comes back as the message "An error occurred: ...".
   */
  method AddLabelsToStatefulSet(cp: ControlPlane, ns: string, name: string, labels: map<string, string>)
    returns (r: Result<StatefulSet, string>)
    requires cp.Valid()
    modifies cp
    ensures cp.Valid() && cp.clock == old(cp.clock)
    ensures r.Ok? <==> cp.Fault(StatefulSetRead).None? && cp.Fault(StatefulSetPatch).None? &&
                       ns in old(cp.namespaces) && name in old(cp.namespaces)[ns].statefulSets
    ensures r.Err? ==> cp.namespaces == old(cp.namespaces) && StartsWith(r.error, "An error occurred: ")
    ensures r.Ok? ==>
      var before := old(cp.namespaces)[ns].statefulSets[name];
      r.value == before.(templateLabels := MergeLabels(before.templateLabels, labels), resourceVersion := old(cp.nextVersion)) &&
      cp.namespaces == old(cp.namespaces)[ns := old(cp.namespaces)[ns].(statefulSets :=
        old(cp.namespaces)[ns].statefulSets[name := r.value])]
  {
    var read := cp.ReadStatefulSet(ns, name);
    if read.Err? {
      return Err(ErrorMessage(read.error));
    }
    var sts := read.value.(templateLabels := MergeLabels(read.value.templateLabels, labels));
    var patched := cp.WriteStatefulSet(StatefulSetPatch, ns, name, sts);
    if patched.Err? {
      return Err(ErrorMessage(patched.error));
    }
    r := Ok(patched.value);
  }
}
