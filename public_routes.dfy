/**
 * The cluster API's public route `update_cluster_status`, through which the
 * status controller reports a cluster's status: it validates the request,
 * writes the status, finds the cluster's owner and tries to notify it over
 * the owner's WebSocket.
 */
module PublicRoutes {
  import opened Wrappers
  import opened Values
  import opened ApiStore

  /**
   * The id of the cluster's owner: its top-level "user_id" when there is
   * one, otherwise the "id" of its "user" when that is a dict holding one.
   */
  function OwnerOf(cluster: Doc): (r: Option<Json>)
    ensures "user_id" in cluster ==> r == Some(cluster["user_id"])
    ensures r.None? <==>
      "user_id" !in cluster && !("user" in cluster && cluster["user"].JObj? && "id" in cluster["user"].fields)
    ensures "user_id" !in cluster && r.Some? ==> r == Some(cluster["user"].fields["id"])
  {
    if "user_id" in cluster then Some(cluster["user_id"])
    else if "user" in cluster && cluster["user"].JObj? && "id" in cluster["user"].fields then
      Some(cluster["user"].fields["id"])
    else None
  }

  /** Whether Python can hash the value, as a lookup in the connection dict demands. */
  predicate Hashable(v: Json) {
    !v.JObj? && !v.JArr?
  }

  /**
   * The reported `notification_sent`: False when there is no owner to
   * notify, otherwise whatever `send_message_to_user` returns, which is
   * always None.
   */
  function NotificationSent(owner: Option<Json>): (v: Json)
    ensures !Truthy(v)
    ensures v == JBool(false) <==> owner.None? || !Truthy(owner.value)
  {
    if owner.Some? && Truthy(owner.value) then JNull else JBool(false)
  }

  const StatusFailed := Reply(false, 500, "Failed to update cluster status", JNull)

  /**
   * `update_cluster_status` for a request with cluster `id` and `status`;
   * `now` is the timestamp written to "updated_at". An owner id that is a
   * non-empty dict or list cannot be looked up among the connections, and
   * the handler answers 500 after the write.
   */
  method UpdateClusterStatus(db: Database, id: string, status: string, now: string) returns (r: Response)
    modifies db
    ensures db.subscriptions == old(db.subscriptions) && db.hostClusters == old(db.hostClusters)
    ensures db.users == old(db.users) && db.events == old(db.events)
    ensures id == [] ==> r == Reply(false, 400, "Cluster ID is required", JNull) && db.clusters == old(db.clusters)
    ensures id != [] && status == [] ==>
              r == Reply(false, 400, "Status is required", JNull) && db.clusters == old(db.clusters)
    ensures id != [] && status != [] && id !in old(db.clusters) ==>
              r == Reply(false, 404, "Cluster with ID " + id + " not found", JNull) && db.clusters == old(db.clusters)
    ensures id != [] && status != [] && id in old(db.clusters) ==>
      var owner := OwnerOf(old(db.clusters)[id]);
      && db.clusters == old(db.clusters)[id := old(db.clusters)[id]["status" := JStr(status)]["updated_at" := JStr(now)]]
      && (owner.Some? && Truthy(owner.value) && !Hashable(owner.value) ==> r == StatusFailed)
      && (!(owner.Some? && Truthy(owner.value) && !Hashable(owner.value)) ==>
            r == Reply(true, 200, "Cluster status updated successfully",
                       JObj(map["id" := JStr(id), "status" := JStr(status),
                                "notification_sent" := NotificationSent(owner)])))
  {
    if id == [] {
      return Reply(false, 400, "Cluster ID is required", JNull);
    }
    if status == [] {
      return Reply(false, 400, "Status is required", JNull);
    }
    if id !in db.clusters {
      return Reply(false, 404, "Cluster with ID " + id + " not found", JNull);
    }
    var cluster := db.clusters[id];
    db.clusters := db.clusters[id := cluster["status" := JStr(status)]["updated_at" := JStr(now)]];
    var owner := OwnerOf(cluster);
    var sent := JBool(false);
    if owner.Some? && Truthy(owner.value) {
      if !Hashable(owner.value) {
        return StatusFailed;
      }
      sent := JNull;
    }
    r := Reply(true, 200, "Cluster status updated successfully",
               JObj(map["id" := JStr(id), "status" := JStr(status), "notification_sent" := sent]));
  }

  /**
   * The owner found under "user" is used only when there is no top-level
   * "user_id", even an empty one; a "user" that is not a dict names nobody.
   */
  lemma OwnerPrecedence()
    ensures OwnerOf(map["user_id" := JStr(""), "user" := JObj(map["id" := JStr("u1")])]) == Some(JStr(""))
    ensures OwnerOf(map["user" := JObj(map["id" := JStr("u1")])]) == Some(JStr("u1"))
    ensures OwnerOf(map["user" := JStr("u1")]).None?
    ensures NotificationSent(OwnerOf(map["user_id" := JStr(""), "user" := JObj(map["id" := JStr("u1")])])) == JBool(false)
    ensures NotificationSent(OwnerOf(map["user_id" := JStr("u1")])) == JNull
  {
  }
}
