/**
 * The state the cluster API's routes work on: the MongoDB collections they
 * read and write, and the Dapr message bus they publish to. Collections of
 * documents are maps keyed by "_id"; the user collection is an ordered list,
 * because `find_one` on it searches by e-mail and returns the first match.
 */
module ApiStore {
  import opened Values

  type Doc = map<string, Json>

  /** A host cluster document, reduced to the fields the routes read. */
  datatype HostCluster = HostCluster(name: string, region: string)

  /** One message published on the bus. */
  datatype Event = Event(topic: string, payload: Doc)

  /**
   * What a route answers with:
   *   - `Reply`: a body built by `generate_response` or a literal dict;
   *   - `Raised`: an HTTPException that leaves the handler, answered as
   *     `{"detail": …}` with its status code;
   *   - `Crashed`: any other exception that leaves the handler, answered 500.
   */
  datatype Response =
    | Reply(success: bool, code: int, message: string, data: Json)
    | Raised(code: int, detail: string)
    | Crashed

  function StatusOf(r: Response): (c: int)
    ensures r.Crashed? ==> c == 500
  {
    match r
    case Reply(_, code, _, _) => code
    case Raised(code, _) => code
    case Crashed => 500
  }

  /** Whether `find_one({field: v})` on a collection finds a document. */
  predicate HasDocWith(coll: map<string, Doc>, field: string, v: Json) {
    exists id :: id in coll && field in coll[id] && coll[id][field] == v
  }

  /** Whether the user list holds a document whose `field` is `v`. */
  predicate HasUserWith(users: seq<map<string, string>>, field: string, v: string) {
    exists i :: 0 <= i < |users| && field in users[i] && users[i][field] == v
  }

  class Database {
    /** The "cluster" collection. */
    var clusters: map<string, Doc>
    /** The "subscription" collection. */
    var subscriptions: map<string, Doc>
    /** The "hostCluster" collection. */
    var hostClusters: map<string, HostCluster>
    /** The "user" collection, in insertion order. */
    var users: seq<map<string, string>>
    /** Everything published on the bus so far. */
    var events: seq<Event>
    /** Whether opening the Dapr client or publishing raises. */
    const publishFails: bool

    constructor (clusters: map<string, Doc>, subscriptions: map<string, Doc>,
                 hostClusters: map<string, HostCluster>, users: seq<map<string, string>>, publishFails: bool)
      ensures this.clusters == clusters && this.subscriptions == subscriptions
      ensures this.hostClusters == hostClusters && this.users == users
      ensures this.events == [] && this.publishFails == publishFails
    {
      this.clusters := clusters;
      this.subscriptions := subscriptions;
      this.hostClusters := hostClusters;
      this.users := users;
      this.events := [];
      this.publishFails := publishFails;
    }

    /** `client.publish_event(topic_name=topic, data=json.dumps(payload))`; false when it raises. */
    method Publish(topic: string, payload: Doc) returns (ok: bool)
      modifies this
      ensures ok == !publishFails
      ensures events == if ok then old(events) + [Event(topic, payload)] else old(events)
      ensures clusters == old(clusters) && subscriptions == old(subscriptions)
      ensures hostClusters == old(hostClusters) && users == old(users)
    {
      ok := !publishFails;
      if ok {
        events := events + [Event(topic, payload)];
      }
    }
  }
}
