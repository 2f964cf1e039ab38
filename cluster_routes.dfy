/**
 * The decision logic of the cluster API's cluster routes: `create_Cluster`,
 * `update_cluster`, `generate_kube_config` and `delete_cluster`. Each route
 * runs a fixed sequence of checks, each with its own answer, then writes the
 * "cluster" collection and publishes an event for the cluster service.
 */
module ClusterRoutes {
  import opened Wrappers
  import opened Text
  import opened Values
  import opened ApiStore
  import opened ClusterSchema
  import opened UserSchema
  import Duration

  // ---------------------------------------------------------------------
  // Kubernetes versions
  // ---------------------------------------------------------------------

  /** `list(map(int, parts))`: None when one of the `int()` calls raises. */
  function ParseInts(parts: seq<string>): (r: Option<seq<int>>)
    ensures r.Some? <==> forall i :: 0 <= i < |parts| ==> ParseInt(parts[i]).Some?
    ensures r.Some? ==> |r.value| == |parts| && forall i :: 0 <= i < |parts| ==> r.value[i] == ParseInt(parts[i]).value
  {
    if parts == [] then Some([])
    else
      var head, tail := ParseInt(parts[0]), ParseInts(parts[1..]);
      assert forall i :: 1 <= i < |parts| ==> parts[i] == parts[1..][i - 1];
      if head.Some? && tail.Some? then Some([head.value] + tail.value) else None
  }

  /**
   * `list(map(int, v.split("v")[1].split(".")))`: the text after the first
   * 'v' and before any second one, as dot-separated integers. None when
   * there is no 'v' (the index raises) or a part is not an integer.
   */
  function ParseVersion(v: string): (r: Option<seq<int>>)
    ensures r.Some? ==> |r.value| >= 1
    ensures r.Some? ==> 'v' in v
  {
    var parts := Split(v, 'v');
    if |parts| < 2 then None else ParseInts(Split(parts[1], '.'))
  }

  /** Python's `a <= b` on two lists of integers: lexicographic order. */
  predicate LexLe(a: seq<int>, b: seq<int>) {
    if a == [] then true
    else if b == [] then false
    else if a[0] != b[0] then a[0] < b[0]
    else LexLe(a[1..], b[1..])
  }

  /** Any two lists are comparable. */
  lemma {:induction false} LexLeTotal(a: seq<int>, b: seq<int>)
    ensures LexLe(a, b) || LexLe(b, a)
  {
    if a != [] && b != [] && a[0] == b[0] {
      LexLeTotal(a[1..], b[1..]);
    }
  }

  /** Two lists each at most the other are equal. */
  lemma {:induction false} LexLeAntisymmetric(a: seq<int>, b: seq<int>)
    requires LexLe(a, b) && LexLe(b, a)
    ensures a == b
  {
    if a != [] && b != [] {
      LexLeAntisymmetric(a[1..], b[1..]);
      assert a == [a[0]] + a[1..] && b == [b[0]] + b[1..];
    }
  }

  lemma {:induction false} LexLeReflexive(a: seq<int>)
    ensures LexLe(a, a)
  {
    if a != [] {
      LexLeReflexive(a[1..]);
    }
  }

  /** A list is below any list that extends it. */
  lemma {:induction false} PrefixIsBelow(a: seq<int>, tail: seq<int>)
    ensures LexLe(a, a + tail)
    ensures tail != [] ==> !LexLe(a + tail, a)
  {
    if a != [] {
      assert (a + tail)[1..] == a[1..] + tail;
      PrefixIsBelow(a[1..], tail);
    }
  }

  /** `not (new_version_parts <= current_version_parts)`: the upgrade gate. */
  predicate IsUpgrade(current: seq<int>, requested: seq<int>) {
    !LexLe(requested, current)
  }

  /**
   * The gate admits exactly the versions strictly above the current one:
   * never the same version, and never both directions of a pair.
   */
  lemma UpgradeIsStrictOrder(current: seq<int>, requested: seq<int>)
    ensures IsUpgrade(current, requested) ==> current != requested && !IsUpgrade(requested, current)
    ensures !IsUpgrade(current, requested) && current != requested ==> IsUpgrade(requested, current)
  {
    LexLeTotal(current, requested);
    LexLeReflexive(current);
    if LexLe(requested, current) && LexLe(current, requested) {
      LexLeAntisymmetric(current, requested);
    }
  }

  /** Adding a component, even a zero, is an upgrade: "v1.30" to "v1.30.0" passes. */
  lemma ExtensionIsUpgrade(current: seq<int>, tail: seq<int>)
    requires tail != []
    ensures IsUpgrade(current, current + tail)
  {
    PrefixIsBelow(current, tail);
  }

  /** A version written "v" and dot-separated numerals parses to those numerals' values. */
  lemma VersionOfParts(parts: seq<string>)
    requires |parts| >= 1 && forall i :: 0 <= i < |parts| ==> IsDigits(parts[i])
    ensures ParseVersion("v" + Join(parts, '.')) == ParseInts(parts)
  {
    assert forall i :: 0 <= i < |parts| ==> 'v' !in parts[i] && '.' !in parts[i] by {
      forall i | 0 <= i < |parts|
        ensures 'v' !in parts[i] && '.' !in parts[i]
      {
        assert forall j :: 0 <= j < |parts[i]| ==> IsDigit(parts[i][j]);
      }
    }
    SplitVersionText(Join(parts, '.'), parts);
  }

  lemma ParseIntOfDigits(a: string)
    requires IsDigits(a)
    ensures ParseInt(a) == Some(DigitsValue(a))
  {
    assert IsDigit(a[0]);
  }

  /** A version text with numeric parts parses to the parts' values. */
  lemma NumericVersion(t: string, parts: seq<string>, values: seq<int>)
    requires |parts| >= 1 && |values| == |parts|
    requires forall i :: 0 <= i < |parts| ==> IsDigits(parts[i]) && DigitsValue(parts[i]) == values[i]
    requires t == "v" + Join(parts, '.')
    ensures ParseVersion(t) == Some(values)
  {
    VersionOfParts(parts);
    forall i | 0 <= i < |parts|
      ensures ParseInt(parts[i]) == Some(values[i])
    {
      ParseIntOfDigits(parts[i]);
    }
    var r := ParseInts(parts).value;
    assert r == values;
  }

  lemma Version1_9_0()
    ensures ParseVersion("v1.9.0") == Some([1, 9, 0])
  {
    assert Join(["1", "9", "0"], '.') == "1.9.0" by {
      assert Join(["9", "0"], '.') == "9.0";
    }
    NumericVersion("v1.9.0", ["1", "9", "0"], [1, 9, 0]);
  }

  lemma Version1_10_0()
    ensures ParseVersion("v1.10.0") == Some([1, 10, 0])
  {
    var ten := "10";
    assert DigitsValue(ten) == 10 by { assert ten[..1] == "1"; }
    var text := "1" + "." + ten + "." + "0";
    assert Join(["1", ten, "0"], '.') == text by {
      assert Join([ten, "0"], '.') == ten + "." + "0";
    }
    assert "v" + text == "v1.10.0";
    NumericVersion("v1.10.0", ["1", ten, "0"], [1, 10, 0]);
  }

  lemma Version1_30()
    ensures ParseVersion("v1.30") == Some([1, 30])
  {
    var thirty := "30";
    assert DigitsValue(thirty) == 30 by { assert thirty[..1] == "3"; }
    assert Join(["1", thirty], '.') == "1" + "." + thirty;
    assert "v" + ("1" + "." + thirty) == "v1.30";
    NumericVersion("v1.30", ["1", thirty], [1, 30]);
  }

  lemma Version1_30_0()
    ensures ParseVersion("v1.30.0") == Some([1, 30, 0])
  {
    var thirty := "30";
    assert DigitsValue(thirty) == 30 by { assert thirty[..1] == "3"; }
    var text := "1" + "." + thirty + "." + "0";
    assert Join(["1", thirty, "0"], '.') == text by {
      assert Join([thirty, "0"], '.') == thirty + "." + "0";
    }
    assert "v" + text == "v1.30.0";
    NumericVersion("v1.30.0", ["1", thirty, "0"], [1, 30, 0]);
  }

  /**
   * The gate on the parsed examples: each part is compared as a number, not
   * as text, and a longer version with the same start is higher; the same
   * version or a lower one does not pass.
   */
  lemma VersionGateExamples()
    ensures IsUpgrade([1, 9, 0], [1, 10, 0])
    ensures IsUpgrade([1, 30], [1, 30, 0])
    ensures !IsUpgrade([1, 30, 0], [1, 30, 0]) && !IsUpgrade([1, 30, 0], [1, 29, 9])
  {
  }

  /** A version without the leading 'v' makes the handler raise. */
  lemma VersionWithoutPrefixRaises()
    ensures ParseVersion("1.30.0") == None
  {
    assert 'v' !in "1.30.0";
  }

  /** How the version texts of the examples split. */
  lemma SplitVersionText(t: string, parts: seq<string>)
    requires |parts| >= 1 && forall i :: 0 <= i < |parts| ==> IsDigits(parts[i]) && 'v' !in parts[i] && '.' !in parts[i]
    requires t == Join(parts, '.')
    ensures Split("v" + t, 'v') == ["", t]
    ensures Split(t, '.') == parts
  {
    JoinHasNo(parts, '.', 'v');
    assert "v" + t == [] + ['v'] + t;
    assert IndexOf("v" + t, 'v') == 0;
    assert ("v" + t)[1..] == t;
    SplitJoin(parts, '.');
  }

  /** A join of pieces none of which holds `c`, with a separator other than `c`, holds no `c`. */
  lemma {:induction false} JoinHasNo(parts: seq<string>, sep: char, c: char)
    requires |parts| >= 1 && sep != c && forall i :: 0 <= i < |parts| ==> c !in parts[i]
    ensures c !in Join(parts, sep)
  {
    if |parts| > 1 {
      JoinHasNo(parts[1..], sep, c);
    }
  }

  /** Splitting a join of separator-free pieces gives the pieces back. */
  lemma {:induction false} SplitJoin(parts: seq<string>, sep: char)
    requires |parts| >= 1 && forall i :: 0 <= i < |parts| ==> sep !in parts[i]
    ensures Split(Join(parts, sep), sep) == parts
  {
    if |parts| > 1 {
      var s := Join(parts, sep);
      var rest := Join(parts[1..], sep);
      assert s == parts[0] + [sep] + rest;
      assert s[|parts[0]|] == sep;
      assert s[..|parts[0]|] == parts[0];
      assert IndexOf(s, sep) == |parts[0]|;
      assert s[|parts[0]| + 1..] == rest;
      SplitJoin(parts[1..], sep);
      assert parts == [parts[0]] + parts[1..];
    }
  }

  // ---------------------------------------------------------------------
  // create_Cluster
  // ---------------------------------------------------------------------

  /** The request body; `kube_version` has already taken its default "v1.30.0" when absent. */
  datatype ClusterRequest = ClusterRequest(name: string, subscriptionId: string, region: string, kubeVersion: string)

  /** The ids of the host clusters of a region. */
  function RegionHosts(hosts: map<string, HostCluster>, region: string): set<string> {
    set id | id in hosts && hosts[id].region == region
  }

  /**
   * The checks of `create_Cluster` before it writes anything. `best` is what
   * the placement service answers for the region's hosts, None when it
   * answers other than 200. The result is the answer that stops the
   * request, or the chosen host's id and name.
   */
  function CreateChecks(clusters: map<string, Doc>, subscriptions: map<string, Doc>,
                        hosts: map<string, HostCluster>, req: ClusterRequest, claims: Claims,
                        best: Option<string>): (r: Result<(string, string), Response>)
    ensures r.Ok? <==>
      && !Forbidden(claims)
      && IsValidUrlName(Some(req.name)).ok
      && !HasDocWith(clusters, "name", JStr(req.name))
      && req.subscriptionId in subscriptions
      && best.Some? && best.value in RegionHosts(hosts, req.region) && hosts[best.value].name != ""
    ensures r.Ok? ==> r.value == (best.value, hosts[best.value].name)
  {
    var check := IsValidUrlName(Some(req.name));
    if Forbidden(claims) then Err(Raised(403, "User is not allowed to create clusters"))
    else if !check.ok then Err(Raised(400, check.message.value))
    else if HasDocWith(clusters, "name", JStr(req.name)) then
      Err(Raised(409, "Cluster with name " + req.name + " already exist"))
    else if req.subscriptionId !in subscriptions then
      Err(Raised(404, "Subscription with ID " + req.subscriptionId + " not found"))
    else if RegionHosts(hosts, req.region) == {} then
      Err(Raised(404, "hostCluster not found within the region " + req.region))
    else if best.None? then Err(Raised(404, "resource not available in the current host"))
    else if best.value !in RegionHosts(hosts, req.region) || hosts[best.value].name == "" then
      Err(Raised(404, "hostCluster not found within the region " + req.region))
    else Ok((best.value, hosts[best.value].name))
  }

  /** The role, name, uniqueness and subscription checks of `create_Cluster` all pass. */
  predicate RequestChecksPass(clusters: map<string, Doc>, subscriptions: map<string, Doc>,
                              req: ClusterRequest, claims: Claims) {
    !Forbidden(claims) && IsValidUrlName(Some(req.name)).ok &&
    !HasDocWith(clusters, "name", JStr(req.name)) && req.subscriptionId in subscriptions
  }

  /**
   * The checks run in the order role, name, uniqueness, subscription,
   * region, placement: each answer is given only when every earlier check
   * passed, whatever the later ones would say.
   */
  lemma CreateCheckOrder(clusters: map<string, Doc>, subscriptions: map<string, Doc>,
                         hosts: map<string, HostCluster>, req: ClusterRequest, claims: Claims, best: Option<string>)
    ensures var r := CreateChecks(clusters, subscriptions, hosts, req, claims, best);
      && (Forbidden(claims) ==> r == Err(Raised(403, "User is not allowed to create clusters")))
      && (!Forbidden(claims) && !IsValidUrlName(Some(req.name)).ok ==>
            r == Err(Raised(400, IsValidUrlName(Some(req.name)).message.value)))
      && (!Forbidden(claims) && IsValidUrlName(Some(req.name)).ok && HasDocWith(clusters, "name", JStr(req.name)) ==>
            r == Err(Raised(409, "Cluster with name " + req.name + " already exist")))
      && ((!Forbidden(claims) && IsValidUrlName(Some(req.name)).ok && !HasDocWith(clusters, "name", JStr(req.name)) &&
           req.subscriptionId !in subscriptions) ==>
            r == Err(Raised(404, "Subscription with ID " + req.subscriptionId + " not found")))
      && (RequestChecksPass(clusters, subscriptions, req, claims) && RegionHosts(hosts, req.region) == {} ==>
            r == Err(Raised(404, "hostCluster not found within the region " + req.region)))
      && (RequestChecksPass(clusters, subscriptions, req, claims) && RegionHosts(hosts, req.region) != {} &&
          best.None? ==>
            r == Err(Raised(404, "resource not available in the current host")))
      && (RequestChecksPass(clusters, subscriptions, req, claims) && RegionHosts(hosts, req.region) != {} &&
          best.Some? && (best.value !in RegionHosts(hosts, req.region) || hosts[best.value].name == "") ==>
            r == Err(Raised(404, "hostCluster not found within the region " + req.region)))
  {
  }

  /**
   * A token without `realm_access` is not checked for the role at all: it
   * fares exactly as a token that holds the create-cluster role.
   */
  lemma NoRealmAccessActsAsRole(clusters: map<string, Doc>, subscriptions: map<string, Doc>,
                                hosts: map<string, HostCluster>, req: ClusterRequest, claims: Claims,
                                best: Option<string>)
    requires claims.realmRoles.None?
    ensures CreateChecks(clusters, subscriptions, hosts, req, claims, best) ==
            CreateChecks(clusters, subscriptions, hosts, req, Claims(claims.fields, Some(["create-cluster"])), best)
  {
  }

  /**
   * The document `jsonable_encoder(Cluster(...))` inserts for a new cluster:
   * it is served as "Creating", under the id it was given, on the chosen
   * host and owned by the requesting user.
   */
  function NewClusterDoc(id: string, req: ClusterRequest, userId: string, hostId: string, now: string): (d: Doc)
    ensures forall k :: k in StoredKeys ==> k in d
    ensures ClustersSerializer(d).Ok?
    ensures ServedAs(ClustersSerializer(d).value, id, userId, hostId)
  {
    var d := map["_id" := JStr(id), "name" := JStr(req.name), "user_id" := JStr(userId), "status" := JStr("Creating"),
                 "kube_version" := JStr(req.kubeVersion), "host_cluster_id" := JStr(hostId),
                 "subscription_id" := JStr(req.subscriptionId), "created" := JStr(now), "updated" := JStr(now)];
    StoredKeysPresent(d);
    SerializedFields(d);
    d
  }

  /** A serialized cluster that is "Creating" under `id` on host `hostId`, owned by `userId`. */
  predicate ServedAs(c: map<string, Json>, id: string, userId: string, hostId: string) {
    && "stauts" in c && c["stauts"] == JStr("Creating")
    && "id" in c && c["id"] == JStr(id)
    && "user_id" in c && c["user_id"] == JStr(userId)
    && "host_cluster_id" in c && c["host_cluster_id"] == JStr(hostId)
  }

  lemma StoredKeysPresent(d: Doc)
    requires "_id" in d && "name" in d && "user_id" in d && "status" in d && "host_cluster_id" in d
    requires "kube_version" in d && "created" in d && "subscription_id" in d
    ensures forall k :: k in StoredKeys ==> k in d
  {
  }

  lemma SerializedFields(d: Doc)
    requires ClustersSerializer(d).Ok?
    ensures var c := ClustersSerializer(d).value;
            c["stauts"] == d["status"] && c["id"] == d["_id"] &&
            c["user_id"] == d["user_id"] && c["host_cluster_id"] == d["host_cluster_id"]
  {
    assert StoredKeys[2] == "user_id" && StoredKeys[4] == "host_cluster_id";
  }

  /** The "cluster-create" event: the plan without its "_id", the host, and the serialized cluster. */
  function CreatePayload(subscription: Doc, hostId: Json, hostName: string, cluster: Doc): Doc {
    map["subscription" := JObj(subscription - {"_id"}), "host_cluster_id" := hostId,
        "host_cluster_name" := JStr(hostName), "cluster" := JObj(cluster)]
  }

  /**
   * `create_Cluster`. `claims` is the decoded token, `user` the record the
   * middleware attached to the request, `best` the placement service's
   * answer, `newId` the id the Cluster model draws and `now` its timestamps.
   * The record is inserted before the event is published and stays when
   * publishing fails.
   */
  method CreateCluster(db: Database, req: ClusterRequest, claims: Claims, user: User, best: Option<string>,
                       newId: string, now: string) returns (r: Response)
    modifies db
    ensures db.subscriptions == old(db.subscriptions) && db.hostClusters == old(db.hostClusters)
    ensures db.users == old(db.users)
    ensures var checks := CreateChecks(old(db.clusters), old(db.subscriptions), old(db.hostClusters), req, claims, best);
      && (checks.Err? ==> r == checks.error && db.clusters == old(db.clusters) && db.events == old(db.events))
      && (checks.Ok? && newId in old(db.clusters) ==>
            r == Crashed && db.clusters == old(db.clusters) && db.events == old(db.events))
      && (checks.Ok? && newId !in old(db.clusters) ==>
            var doc := NewClusterDoc(newId, req, user.id, checks.value.0, now);
            && db.clusters == old(db.clusters)[newId := doc]
            && (db.publishFails ==> r == Reply(false, 500, "Failed to create cluster", JNull) && db.events == old(db.events))
            && (!db.publishFails ==>
                  r == Reply(true, 200, "Clusters listed successfully", JObj(ClustersSerializer(doc).value))
                  && db.events == old(db.events) + [Event("cluster-create",
                       CreatePayload(old(db.subscriptions)[req.subscriptionId], JStr(checks.value.0), checks.value.1,
                                     ClustersSerializer(doc).value))]))
  {
    var checks := CreateChecks(db.clusters, db.subscriptions, db.hostClusters, req, claims, best);
    if checks.Err? {
      return checks.error;
    }
    var (hostId, hostName) := checks.value;
    if newId in db.clusters {
      return Crashed;
    }
    var doc := NewClusterDoc(newId, req, user.id, hostId, now);
    r := InsertAndAnnounce(db, newId, doc, db.subscriptions[req.subscriptionId], hostId, hostName);
  }

  /** The writes of `create_Cluster` once its checks pass: insert the record, then publish it. */
  method InsertAndAnnounce(db: Database, newId: string, doc: Doc, subscription: Doc, hostId: string, hostName: string)
    returns (r: Response)
    requires newId !in db.clusters && ClustersSerializer(doc).Ok?
    modifies db
    ensures db.subscriptions == old(db.subscriptions) && db.hostClusters == old(db.hostClusters)
    ensures db.users == old(db.users) && db.clusters == old(db.clusters)[newId := doc]
    ensures db.publishFails ==> r == Reply(false, 500, "Failed to create cluster", JNull) && db.events == old(db.events)
    ensures !db.publishFails ==>
              r == Reply(true, 200, "Clusters listed successfully", JObj(ClustersSerializer(doc).value)) &&
              db.events == old(db.events) + [Event("cluster-create",
                             CreatePayload(subscription, JStr(hostId), hostName, ClustersSerializer(doc).value))]
  {
    db.clusters := db.clusters[newId := doc];
    var created := ClustersSerializer(doc).value;
    var ok := db.Publish("cluster-create", CreatePayload(subscription, JStr(hostId), hostName, created));
    if ok {
      r := Reply(true, 200, "Clusters listed successfully", JObj(created));
    } else {
      r := Reply(false, 500, "Failed to create cluster", JNull);
    }
  }

  // ---------------------------------------------------------------------
  // update_cluster
  // ---------------------------------------------------------------------

  /** `find_one({"_id": v})` on the host clusters: only a string id can match. */
  function FindHost(hosts: map<string, HostCluster>, v: Json): Option<HostCluster> {
    if v.JStr? && v.s in hosts then Some(hosts[v.s]) else None
  }

  function FindDoc(coll: map<string, Doc>, v: Json): Option<Doc> {
    if v.JStr? && v.s in coll then Some(coll[v.s]) else None
  }

  /** Whether the stored version of `doc` parses and `kubeVersion` is a strict upgrade of it. */
  predicate UpgradeRequested(doc: Doc, kubeVersion: string) {
    "kube_version" in doc && doc["kube_version"].JStr? &&
    ParseVersion(doc["kube_version"].s).Some? && ParseVersion(kubeVersion).Some? &&
    IsUpgrade(ParseVersion(doc["kube_version"].s).value, ParseVersion(kubeVersion).value)
  }

  /**
   * The checks of `update_cluster` before its write. The result is the
   * answer that stops the request, or the stored document, its host and its
   * plan. A missing field, a version without 'v' or a non-integer part
   * raises out of the handler.
   */
  function UpdateChecks(clusters: map<string, Doc>, hosts: map<string, HostCluster>, subscriptions: map<string, Doc>,
                        id: string, kubeVersion: string): (r: Result<(Doc, HostCluster, Doc), Response>)
    ensures r.Ok? ==> id in clusters && r.value.0 == clusters[id]
    ensures r.Ok? ==> "kube_version" in clusters[id] && clusters[id]["kube_version"].JStr? &&
                      ParseVersion(clusters[id]["kube_version"].s).Some? && ParseVersion(kubeVersion).Some? &&
                      IsUpgrade(ParseVersion(clusters[id]["kube_version"].s).value, ParseVersion(kubeVersion).value)
    ensures r.Ok? ==> "host_cluster_id" in clusters[id] && FindHost(hosts, clusters[id]["host_cluster_id"]) == Some(r.value.1)
    ensures r.Ok? ==> "subscription_id" in clusters[id] && FindDoc(subscriptions, clusters[id]["subscription_id"]) == Some(r.value.2)
    ensures id !in clusters ==> r == Err(Reply(false, 404, "Cluster with ID " + id + " not found", JNull))
    ensures id in clusters && ("kube_version" !in clusters[id] || !clusters[id]["kube_version"].JStr?) ==> r == Err(Crashed)
    ensures id in clusters && UpgradeRequested(clusters[id], kubeVersion) && "host_cluster_id" in clusters[id] &&
            FindHost(hosts, clusters[id]["host_cluster_id"]).None? ==>
              r == Err(Reply(false, 404, "Host cluster data not found", JNull))
    ensures id in clusters && UpgradeRequested(clusters[id], kubeVersion) && "host_cluster_id" in clusters[id] &&
            FindHost(hosts, clusters[id]["host_cluster_id"]).Some? && "subscription_id" in clusters[id] &&
            FindDoc(subscriptions, clusters[id]["subscription_id"]).None? ==>
              r == Err(Reply(false, 404, "Subscription with ID " + Show(clusters[id]["subscription_id"]) + " not found", JNull))
    ensures r.Ok? <==> id in clusters && UpgradeRequested(clusters[id], kubeVersion) &&
                       "host_cluster_id" in clusters[id] && FindHost(hosts, clusters[id]["host_cluster_id"]).Some? &&
                       "subscription_id" in clusters[id] && FindDoc(subscriptions, clusters[id]["subscription_id"]).Some?
  {
    if id !in clusters then Err(Reply(false, 404, "Cluster with ID " + id + " not found", JNull))
    else
      var doc := clusters[id];
      if "kube_version" !in doc || !doc["kube_version"].JStr? then Err(Crashed)
      else
        var current := ParseVersion(doc["kube_version"].s);
        var requested := ParseVersion(kubeVersion);
        if current.None? || requested.None? then Err(Crashed)
        else if !IsUpgrade(current.value, requested.value) then
          Err(Reply(false, 400, "Kube version can only be upgraded", JNull))
        else if "host_cluster_id" !in doc then Err(Crashed)
        else
          match FindHost(hosts, doc["host_cluster_id"])
          case None => Err(Reply(false, 404, "Host cluster data not found", JNull))
          case Some(host) =>
            if "subscription_id" !in doc then Err(Crashed)
            else
              match FindDoc(subscriptions, doc["subscription_id"])
              case None => Err(Reply(false, 404, "Subscription with ID " + Show(doc["subscription_id"]) + " not found", JNull))
              case Some(sub) => Ok((doc, host, sub))
  }

  /**
   * The version gate runs before the host and plan lookups: a version that
   * is not an upgrade is answered 400 whatever the other collections hold.
   */
  lemma VersionCheckedBeforeLookups(clusters: map<string, Doc>, hosts: map<string, HostCluster>,
                                    subscriptions: map<string, Doc>, id: string, kubeVersion: string)
    requires id in clusters && "kube_version" in clusters[id] && clusters[id]["kube_version"].JStr?
    requires ParseVersion(clusters[id]["kube_version"].s).Some? && ParseVersion(kubeVersion).Some?
    requires !IsUpgrade(ParseVersion(clusters[id]["kube_version"].s).value, ParseVersion(kubeVersion).value)
    ensures UpdateChecks(clusters, hosts, subscriptions, id, kubeVersion) ==
            Err(Reply(false, 400, "Kube version can only be upgraded", JNull))
  {
  }

  /** Asking for the version a cluster already runs is refused. */
  lemma SameVersionRefused(clusters: map<string, Doc>, hosts: map<string, HostCluster>,
                           subscriptions: map<string, Doc>, id: string)
    requires id in clusters && "kube_version" in clusters[id] && clusters[id]["kube_version"].JStr?
    requires ParseVersion(clusters[id]["kube_version"].s).Some?
    ensures UpdateChecks(clusters, hosts, subscriptions, id, clusters[id]["kube_version"].s) ==
            Err(Reply(false, 400, "Kube version can only be upgraded", JNull))
  {
    var v := ParseVersion(clusters[id]["kube_version"].s).value;
    UpgradeIsStrictOrder(v, v);
  }

  /** The stored document after an accepted upgrade. */
  function Upgraded(doc: Doc, kubeVersion: string): (d: Doc)
    ensures d.Keys == doc.Keys + {"kube_version", "status"}
    ensures d["kube_version"] == JStr(kubeVersion) && d["status"] == JStr("Updating")
    ensures forall k :: k in doc && k != "kube_version" && k != "status" ==> d[k] == doc[k]
  {
    doc["kube_version" := JStr(kubeVersion)]["status" := JStr("Updating")]
  }

  /**
   * `update_cluster`. The new version and the status "Updating" are written
   * before the event is published, so they stay when publishing fails; a
   * stored document the serializer cannot read raises after the write.
   */
  method UpdateCluster(db: Database, id: string, kubeVersion: string) returns (r: Response)
    modifies db
    ensures db.subscriptions == old(db.subscriptions) && db.hostClusters == old(db.hostClusters)
    ensures db.users == old(db.users)
    ensures var checks := UpdateChecks(old(db.clusters), old(db.hostClusters), old(db.subscriptions), id, kubeVersion);
      && (checks.Err? ==> r == checks.error && db.clusters == old(db.clusters) && db.events == old(db.events))
      && (checks.Ok? ==>
            var doc := Upgraded(old(db.clusters)[id], kubeVersion);
            && db.clusters == old(db.clusters)[id := doc]
            && (ClustersSerializer(doc).Err? ==> r == Crashed && db.events == old(db.events))
            && (ClustersSerializer(doc).Ok? && db.publishFails ==>
                  r == Reply(false, 500, "Failed to update cluster", JNull) && db.events == old(db.events))
            && (ClustersSerializer(doc).Ok? && !db.publishFails ==>
                  r == Reply(true, 200, "Cluster updated successfully", JObj(ClustersSerializer(doc).value))
                  && db.events == old(db.events) + [Event("cluster-create",
                       CreatePayload(checks.value.2, old(db.clusters)[id]["host_cluster_id"], checks.value.1.name,
                                     ClustersSerializer(doc).value))]))
  {
    var checks := UpdateChecks(db.clusters, db.hostClusters, db.subscriptions, id, kubeVersion);
    if checks.Err? {
      return checks.error;
    }
    var (cluster, host, subscription) := checks.value;
    var doc := Upgraded(cluster, kubeVersion);
    db.clusters := db.clusters[id := doc];
    var serialized := ClustersSerializer(doc);
    if serialized.Err? {
      return Crashed;
    }
    var ok := db.Publish("cluster-create",
                         CreatePayload(subscription, cluster["host_cluster_id"], host.name, serialized.value));
    if ok {
      r := Reply(true, 200, "Cluster updated successfully", JObj(serialized.value));
    } else {
      r := Reply(false, 500, "Failed to update cluster", JNull);
    }
  }

  // ---------------------------------------------------------------------
  // generate_kube_config
  // ---------------------------------------------------------------------

  /** The body posted to the cluster service's /generate-config. */
  datatype ConfigRequest = ConfigRequest(name: Json, hostClusterId: Json, expirationTime: int)

  /** The fields of the cluster service's 200 reply that fill the kubeconfig template. */
  datatype ServiceReply = ServiceReply(cluster: string, clusterCerts: string, token: string, server: string)

  /** The route's answer: the filled kubeconfig file, or a JSON response. */
  datatype ConfigAnswer = KubeconfigFile(values: ServiceReply) | JsonAnswer(response: Response)

  /**
   * The checks of `generate_kube_config` and the request it sends: the
   * lifetime must parse and be at least ten minutes, and the cluster must
   * exist and have a name and a host. The lifetime is read by
   * `extract_time_components` as written, so "<H>h<M>m" counts its hours only.
   */
  function ConfigRequestFor(clusters: map<string, Doc>, expiryTime: string, clusterId: string)
    : (r: Result<ConfigRequest, Response>)
    ensures Duration.ExtractTimeComponents(expiryTime).None? ==>
              r == Err(Reply(false, 400, "Incorrect expiration time format", JArr([])))
    ensures Duration.ExtractTimeComponents(expiryTime).Some? && Duration.ExtractTimeComponents(expiryTime).value < 600 ==>
              r == Err(Reply(false, 400, "Expiration time shouldn't be less than 10 min", JArr([])))
    ensures Duration.ExtractTimeComponents(expiryTime).Some? && Duration.ExtractTimeComponents(expiryTime).value >= 600 &&
            clusterId !in clusters ==>
              r == Err(Reply(false, 404, "Cluster with ID " + clusterId + " not found", JArr([])))
    ensures r.Ok? <==> Duration.ExtractTimeComponents(expiryTime).Some? && Duration.ExtractTimeComponents(expiryTime).value >= 600 &&
                       clusterId in clusters && "name" in clusters[clusterId] && "host_cluster_id" in clusters[clusterId]
    ensures r.Ok? ==> Duration.ExtractTimeComponents(expiryTime) == Some(r.value.expirationTime) && r.value.expirationTime >= 600
    ensures Duration.ExtractTimeComponents(expiryTime).Some? && Duration.ExtractTimeComponents(expiryTime).value >= 600 &&
            clusterId in clusters && ("name" !in clusters[clusterId] || "host_cluster_id" !in clusters[clusterId]) ==>
              r == Err(Crashed)
    ensures r.Ok? ==> clusterId in clusters && "name" in clusters[clusterId] && "host_cluster_id" in clusters[clusterId]
    ensures r.Ok? ==> r.value.name == clusters[clusterId]["name"] &&
                      r.value.hostClusterId == clusters[clusterId]["host_cluster_id"]
  {
    match Duration.ExtractTimeComponents(expiryTime)
    case None => Err(Reply(false, 400, "Incorrect expiration time format", JArr([])))
    case Some(seconds) =>
      if seconds < 600 then Err(Reply(false, 400, "Expiration time shouldn't be less than 10 min", JArr([])))
      else if clusterId !in clusters then Err(Reply(false, 404, "Cluster with ID " + clusterId + " not found", JArr([])))
      else if "name" !in clusters[clusterId] || "host_cluster_id" !in clusters[clusterId] then Err(Crashed)
      else Ok(ConfigRequest(clusters[clusterId]["name"], clusters[clusterId]["host_cluster_id"], seconds))
  }

  /**
   * `generate_kube_config`. `reply` is what the cluster service answers to
   * the request, None for a status other than 200; it is consulted only
   * when the request is sent.
   */
  function GenerateKubeConfig(clusters: map<string, Doc>, expiryTime: string, clusterId: string,
                              reply: Option<ServiceReply>): (a: ConfigAnswer)
    ensures a.KubeconfigFile? <==> ConfigRequestFor(clusters, expiryTime, clusterId).Ok? && reply.Some?
    ensures a.KubeconfigFile? ==> a.values == reply.value
    ensures ConfigRequestFor(clusters, expiryTime, clusterId).Err? ==>
              a == JsonAnswer(ConfigRequestFor(clusters, expiryTime, clusterId).error)
    ensures ConfigRequestFor(clusters, expiryTime, clusterId).Ok? && reply.None? ==>
              a == JsonAnswer(Reply(false, 500, "Internal server error", JArr([])))
  {
    match ConfigRequestFor(clusters, expiryTime, clusterId)
    case Err(e) => JsonAnswer(e)
    case Ok(_) =>
      if reply.Some? then KubeconfigFile(reply.value)
      else JsonAnswer(Reply(false, 500, "Internal server error", JArr([])))
  }

  /** Nine minutes is refused as too short; text that is no duration at all is refused as malformed. */
  lemma ExpiryRefused(clusters: map<string, Doc>, clusterId: string)
    ensures ConfigRequestFor(clusters, "9m", clusterId) ==
              Err(Reply(false, 400, "Expiration time shouldn't be less than 10 min", JArr([])))
    ensures ConfigRequestFor(clusters, "abc", clusterId) ==
              Err(Reply(false, 400, "Incorrect expiration time format", JArr([])))
  {
    var nine := "9";
    Duration.MinutesForm(nine, "");
    assert nine + "m" + "" == "9m";
    assert Duration.DigitRun("abc") == 0;
  }

  /** Ten minutes is the shortest lifetime accepted. */
  lemma TenMinutesAccepted(clusters: map<string, Doc>, clusterId: string)
    requires clusterId in clusters && "name" in clusters[clusterId] && "host_cluster_id" in clusters[clusterId]
    ensures ConfigRequestFor(clusters, "10m", clusterId).Ok?
    ensures ConfigRequestFor(clusters, "10m", clusterId).value.expirationTime == 600
  {
    var ten := "10";
    Duration.MinutesForm(ten, "");
    assert ten + "m" + "" == "10m";
    assert DigitsValue(ten) == 10 by { assert ten[..1] == "1"; }
  }

  /**
   * The route reads the combined form as its hours only: "1h20m" asks for
   * 3600 seconds, and "0h20m" is refused as shorter than ten minutes
   * although it spells twenty.
   */
  lemma CombinedExpiryAsWritten(clusters: map<string, Doc>, clusterId: string)
    requires clusterId in clusters && "name" in clusters[clusterId] && "host_cluster_id" in clusters[clusterId]
    ensures ConfigRequestFor(clusters, "1h20m", clusterId).Ok?
    ensures ConfigRequestFor(clusters, "1h20m", clusterId).value.expirationTime == 3600
    ensures ConfigRequestFor(clusters, "0h20m", clusterId) ==
              Err(Reply(false, 400, "Expiration time shouldn't be less than 10 min", JArr([])))
  {
    var one, zero := "1", "0";
    Duration.HoursForm(one, "20m");
    assert one + "h" + "20m" == "1h20m";
    Duration.HoursForm(zero, "20m");
    assert zero + "h" + "20m" == "0h20m";
  }

  // ---------------------------------------------------------------------
  // delete_cluster
  // ---------------------------------------------------------------------

  /** The "cluster-delete" event. */
  function DeletePayload(hostId: string, clusterName: Json): Doc {
    map["host_cluster_id" := JStr(hostId), "cluster_name" := clusterName]
  }

  /**
   * `delete_cluster`. `vanished` says that another request removed the
   * document between this request's read and its delete, so that
   * `delete_one` reports no deletion. A KeyError is caught by the route's
   * own handlers: before the delete it answers "Failed to delete cluster",
   * inside the publishing block "Failed to publish delete event".
   */
  method DeleteCluster(db: Database, id: string, vanished: bool) returns (r: Response)
    modifies db
    ensures db.subscriptions == old(db.subscriptions) && db.hostClusters == old(db.hostClusters)
    ensures db.users == old(db.users)
    ensures id !in old(db.clusters) ==>
              r == Reply(false, 404, "Cluster with ID " + id + " not found", JNull) &&
              db.clusters == old(db.clusters) && db.events == old(db.events)
    ensures id in old(db.clusters) && "host_cluster_id" !in old(db.clusters)[id] ==>
              r == Reply(false, 500, "Failed to delete cluster", JNull) &&
              db.clusters == old(db.clusters) && db.events == old(db.events)
    ensures id in old(db.clusters) && "host_cluster_id" in old(db.clusters)[id] &&
            FindHost(old(db.hostClusters), old(db.clusters)[id]["host_cluster_id"]).None? ==>
              r == Reply(false, 404, "HostCluster with ID " + id + " not found", JNull) &&
              db.clusters == old(db.clusters) && db.events == old(db.events)
    ensures id in old(db.clusters) && "host_cluster_id" in old(db.clusters)[id] &&
            FindHost(old(db.hostClusters), old(db.clusters)[id]["host_cluster_id"]).Some? ==>
              && db.clusters == old(db.clusters) - {id}
              && var doc := old(db.clusters)[id];
              && (vanished ==> r == Reply(false, 404, "Cluster with ID " + id + " not found", JNull) &&
                               db.events == old(db.events))
              && (!vanished && ("name" !in doc || db.publishFails) ==>
                    r == Reply(false, 500, "Failed to publish delete event", JNull) && db.events == old(db.events))
              && (!vanished && "name" in doc && !db.publishFails ==>
                    r == Reply(true, 202, "Cluster with ID " + id + " deleted", JNull) &&
                    db.events == old(db.events) + [Event("cluster-delete", DeletePayload(doc["host_cluster_id"].s, doc["name"]))])
  {
    if id !in db.clusters {
      return Reply(false, 404, "Cluster with ID " + id + " not found", JNull);
    }
    var cluster := db.clusters[id];
    if "host_cluster_id" !in cluster {
      return Reply(false, 500, "Failed to delete cluster", JNull);
    }
    var host := FindHost(db.hostClusters, cluster["host_cluster_id"]);
    if host.None? {
      return Reply(false, 404, "HostCluster with ID " + id + " not found", JNull);
    }
    var hostId := cluster["host_cluster_id"].s;
    var deletedCount := if vanished then 0 else 1;
    db.clusters := db.clusters - {id};
    if deletedCount == 1 {
      if "name" !in cluster {
        return Reply(false, 500, "Failed to publish delete event", JNull);
      }
      var ok := db.Publish("cluster-delete", DeletePayload(hostId, cluster["name"]));
      if ok {
        r := Reply(true, 202, "Cluster with ID " + id + " deleted", JNull);
      } else {
        r := Reply(false, 500, "Failed to publish delete event", JNull);
      }
      return;
    }
    r := Reply(false, 404, "Cluster with ID " + id + " not found", JNull);
  }
}
