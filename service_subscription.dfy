/**
 * The subscription plan as the cluster service receives it, and
 * `parse_subscription_json`, which builds it from a JSON object.
 */
module ServiceSubscription {
  import opened Wrappers
  import opened Values

  /**
   * A plan: its name and eight resource counts. The constructor stores every
   * argument unchanged, so any JSON value may sit in any field.
   */
  datatype Subscription = Subscription(
    name: Json,
    pods: Json,
    service: Json,
    configMap: Json,
    persistenceVolClaims: Json,
    replicationCtl: Json,
    secrets: Json,
    loadbalancer: Json,
    nodePort: Json)

  /** Python's KeyError, naming the missing key. */
  datatype KeyError = KeyError(key: string)

  /** The keys `parse_subscription_json` reads, in the order it reads them. */
  const RequiredKeys: seq<string> := ["name", "pods", "service", "config_map", "persistance_vol_claims",
                                      "replication_ctl", "secrets", "loadbalancer", "node_port"]

  /** The first of `keys` missing from `m`. */
  function FirstMissing(m: map<string, Json>, keys: seq<string>): (r: Option<string>)
    ensures r.None? <==> forall k :: k in keys ==> k in m
    ensures r.Some? ==> r.value in keys && r.value !in m
  {
    if keys == [] then None
    else if keys[0] !in m then Some(keys[0])
    else FirstMissing(m, keys[1..])
  }

  /**
   * `parse_subscription_json`: each field from the key of the same name,
   * except that the volume-claim count is read from "persistance_vol_claims".
   * The first missing key raises KeyError.
   */
  function ParseSubscriptionJson(m: map<string, Json>): (r: Result<Subscription, KeyError>)
    ensures r.Ok? <==> forall k :: k in RequiredKeys ==> k in m
    ensures r.Err? ==> Some(r.error.key) == FirstMissing(m, RequiredKeys)
  {
    match FirstMissing(m, RequiredKeys)
    case Some(k) => Err(KeyError(k))
    case None =>
      assert RequiredKeys[0] in m && RequiredKeys[1] in m && RequiredKeys[2] in m && RequiredKeys[3] in m &&
             RequiredKeys[4] in m && RequiredKeys[5] in m && RequiredKeys[6] in m && RequiredKeys[7] in m &&
             RequiredKeys[8] in m;
      Ok(Subscription(m["name"], m["pods"], m["service"], m["config_map"], m["persistance_vol_claims"],
                      m["replication_ctl"], m["secrets"], m["loadbalancer"], m["node_port"]))
  }

  /** The plan document the parser expects: the required keys and nothing else. */
  function ToJson(s: Subscription): map<string, Json> {
    map["name" := s.name, "pods" := s.pods, "service" := s.service, "config_map" := s.configMap,
        "persistance_vol_claims" := s.persistenceVolClaims, "replication_ctl" := s.replicationCtl,
        "secrets" := s.secrets, "loadbalancer" := s.loadbalancer, "node_port" := s.nodePort]
  }

  /** Parsing a plan's own document gives the plan back, field for field. */
  lemma ParseToJson(s: Subscription)
    ensures ParseSubscriptionJson(ToJson(s)) == Ok(s)
  {
  }

  /** Keys other than the required ones, such as _id, created and updated, play no part. */
  lemma ExtraKeysIgnored(m: map<string, Json>, extra: map<string, Json>)
    requires forall k :: k in extra ==> k !in RequiredKeys
    ensures ParseSubscriptionJson(m + extra) == ParseSubscriptionJson(m)
  {
    FirstMissingAgrees(m + extra, m, RequiredKeys);
    if FirstMissing(m, RequiredKeys).None? {
      var ks := RequiredKeys;
      assert ks[0] in m && ks[1] in m && ks[2] in m && ks[3] in m && ks[4] in m &&
             ks[5] in m && ks[6] in m && ks[7] in m && ks[8] in m;
      forall k | k in ks
        ensures (m + extra)[k] == m[k]
      {
      }
    }
  }

  lemma {:induction false} FirstMissingAgrees(m1: map<string, Json>, m2: map<string, Json>, keys: seq<string>)
    requires forall k :: k in keys ==> (k in m1 <==> k in m2)
    ensures FirstMissing(m1, keys) == FirstMissing(m2, keys)
  {
    if keys != [] {
      FirstMissingAgrees(m1, m2, keys[1..]);
    }
  }

  /** A document that spells the key "persistence_vol_claims" correctly is rejected. */
  lemma CorrectSpellingRejected(s: Subscription)
    ensures ParseSubscriptionJson(ToJson(s) - {"persistance_vol_claims"}
                                  + map["persistence_vol_claims" := s.persistenceVolClaims])
            == Err(KeyError("persistance_vol_claims"))
  {
    var d := ToJson(s) - {"persistance_vol_claims"} + map["persistence_vol_claims" := s.persistenceVolClaims];
    assert RequiredKeys[4] == "persistance_vol_claims";
    assert RequiredKeys[0] in d && RequiredKeys[1] in d && RequiredKeys[2] in d && RequiredKeys[3] in d;
    VolumeClaimKeyMissing(d);
  }

  /** With the four keys read first present, a missing fifth one is the one reported. */
  lemma VolumeClaimKeyMissing(m: map<string, Json>)
    requires RequiredKeys[0] in m && RequiredKeys[1] in m && RequiredKeys[2] in m && RequiredKeys[3] in m
    requires RequiredKeys[4] !in m
    ensures ParseSubscriptionJson(m) == Err(KeyError(RequiredKeys[4]))
  {
    var ks := RequiredKeys;
    assert FirstMissing(m, ks[4..]) == Some(ks[4]);
    assert FirstMissing(m, ks[3..]) == FirstMissing(m, ks[4..]) by {
      assert ks[3..][0] == ks[3] && ks[3..][1..] == ks[4..];
    }
    assert FirstMissing(m, ks[2..]) == FirstMissing(m, ks[3..]) by {
      assert ks[2..][0] == ks[2] && ks[2..][1..] == ks[3..];
    }
    assert FirstMissing(m, ks[1..]) == FirstMissing(m, ks[2..]) by {
      assert ks[1..][0] == ks[1] && ks[1..][1..] == ks[2..];
    }
  }
}
