/**
 * The decision logic of the cluster API's user routes `token_verify` and
 * `subscription_request`. Both run inside one `try` whose handler answers
 * 500, so every exception, an HTTPException raised on purpose included,
 * ends there.
 */
module UserRoutes {
  import opened Wrappers
  import opened Values
  import opened ApiStore
  import opened UserSchema

  const VerifyFailed := Reply(false, 500, "Failed to verify token", JArr([]))

  function RolesJson(roles: seq<string>): (r: Json)
    ensures r.JArr? && |r.items| == |roles|
    ensures forall i :: 0 <= i < |roles| ==> r.items[i] == JStr(roles[i])
  {
    JArr(seq(|roles|, i requires 0 <= i < |roles| => JStr(roles[i])))
  }

  /**
   * `token_verify`. `claims` is the decoded token, None when taking the
   * token from the header or decoding it raised.
   */
  function TokenVerify(claims: Option<Claims>): (r: Response)
    ensures r.Reply?
    ensures r.success <==>
      claims.Some? && claims.value.realmRoles.Some? && "create-cluster" in claims.value.realmRoles.value &&
      "sub" in claims.value.fields
    ensures !r.success ==> r == VerifyFailed
    ensures r.success ==> r.code == 202 && r.data == JArr([JObj(map[
              "status" := JInt(202), "realm_roles" := RolesJson(claims.value.realmRoles.value),
              "user_id" := JStr(claims.value.fields["sub"])])])
  {
    if claims.None? then VerifyFailed
    else
      var c := claims.value;
      if Forbidden(c) then VerifyFailed
      else if c.realmRoles.None? then VerifyFailed
      else if "sub" !in c.fields then VerifyFailed
      else Reply(true, 202, "Token verified", JArr([JObj(map[
             "status" := JInt(202), "realm_roles" := RolesJson(c.realmRoles.value),
             "user_id" := JStr(c.fields["sub"])])]))
  }

  /**
   * The 403 meant for a token without the role never leaves the route: it is
   * answered 500 like every other failure. A token without `realm_access`,
   * which the create route lets through, fails here too.
   */
  lemma TokenVerifyNeverForbids(claims: Option<Claims>)
    ensures StatusOf(TokenVerify(claims)) != 403
    ensures claims.Some? && Forbidden(claims.value) ==> StatusOf(TokenVerify(claims)) == 500
    ensures claims.Some? && claims.value.realmRoles.None? ==>
              !Forbidden(claims.value) && TokenVerify(claims) == VerifyFailed
  {
  }

  /** The three answers to a subscription request, by the user's groups. */
  datatype GroupDecision = JoinRequestGroup | AlreadyRequested | AlreadyApproved

  /** The branch `subscription_request` takes on the names of the user's groups. */
  function Decide(groups: seq<string>, requestGroup: string): (d: GroupDecision)
    ensures d == JoinRequestGroup <==> groups == []
    ensures d == AlreadyRequested <==> requestGroup in groups
    ensures d == AlreadyApproved <==> groups != [] && requestGroup !in groups
  {
    if groups == [] then JoinRequestGroup
    else if exists i :: 0 <= i < |groups| && groups[i] == requestGroup then AlreadyRequested
    else AlreadyApproved
  }

  /** Keycloak's groups: which exist, and which each user belongs to. */
  class Directory {
    /** The names of the groups that exist. */
    const groups: set<string>
    /** For each known user id, the names of its groups in the order Keycloak lists them. */
    var memberships: map<string, seq<string>>

    constructor (groups: set<string>, memberships: map<string, seq<string>>)
      ensures this.groups == groups && this.memberships == memberships
    {
      this.groups := groups;
      this.memberships := memberships;
    }
  }

  /** The entry in the data of a granted request. */
  const RequestSent := JObj(map["status" := JInt(202), "message" := JStr("Subscription request sent successfully")])

  const RequestFailed := Reply(false, 500, "Failed to request subscription", JArr([]))

  /**
   * `subscription_request`, where `requestGroup` is the configured
   * REQUEST_GROUP_NAME. Looking up an unknown user or a group that does not
   * exist raises in Keycloak and is answered 500.
   */
  method SubscriptionRequest(dir: Directory, claims: Option<Claims>, requestGroup: string) returns (r: Response)
    modifies dir
    ensures claims.None? || "sub" !in claims.value.fields ==>
              r == RequestFailed && dir.memberships == old(dir.memberships)
    ensures claims.Some? && "sub" in claims.value.fields ==>
      var user := claims.value.fields["sub"];
      && (user !in old(dir.memberships) ==> r == RequestFailed && dir.memberships == old(dir.memberships))
      && (user in old(dir.memberships) ==>
            var d := Decide(old(dir.memberships)[user], requestGroup);
            && (d == AlreadyRequested ==>
                  r == Reply(false, 400, "User already requested for subscription", JArr([])) &&
                  dir.memberships == old(dir.memberships))
            && (d == AlreadyApproved ==>
                  r == Reply(false, 400, "User already approved for subscription", JArr([])) &&
                  dir.memberships == old(dir.memberships))
            && (d == JoinRequestGroup && requestGroup !in dir.groups ==>
                  r == RequestFailed && dir.memberships == old(dir.memberships))
            && (d == JoinRequestGroup && requestGroup in dir.groups ==>
                  r == Reply(true, 202, "Subscription request sent successfully", JArr([RequestSent])) &&
                  dir.memberships == old(dir.memberships)[user := [requestGroup]]))
  {
    if claims.None? || "sub" !in claims.value.fields {
      return RequestFailed;
    }
    var user := claims.value.fields["sub"];
    if user !in dir.memberships {
      return RequestFailed;
    }
    var groups := dir.memberships[user];
    match Decide(groups, requestGroup)
    case JoinRequestGroup =>
      if requestGroup !in dir.groups {
        return RequestFailed;
      }
      assert groups + [requestGroup] == [requestGroup];
      dir.memberships := dir.memberships[user := groups + [requestGroup]];
      r := Reply(true, 202, "Subscription request sent successfully", JArr([RequestSent]));
    case AlreadyRequested =>
      r := Reply(false, 400, "User already requested for subscription", JArr([]));
    case AlreadyApproved =>
      r := Reply(false, 400, "User already approved for subscription", JArr([]));
  }

  /**
   * A request is granted once: after joining the request group the user's
   * next request is refused as already requested, and a user approved into
   * another group is never moved into the request group.
   */
  lemma RequestGrantedOnce(requestGroup: string, other: string)
    requires other != requestGroup
    ensures Decide([], requestGroup) == JoinRequestGroup
    ensures Decide([] + [requestGroup], requestGroup) == AlreadyRequested
    ensures Decide([other], requestGroup) == AlreadyApproved
    ensures Decide([other, requestGroup], requestGroup) == AlreadyRequested
  {
    assert ([] + [requestGroup])[0] == requestGroup;
    assert [other, requestGroup][1] == requestGroup;
  }
}
