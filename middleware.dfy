/**
 * The cluster API's authentication middleware, `validate_keycloak_token`:
 * public paths pass untouched; any other request needs an
 * "Authorization: Bearer <token>" header whose token decodes, and then
 * `check_user` finds the token's user by e-mail or stores a new one.
 *
 * Decoding the token is Keycloak's work and comes in as a `Decoded` value.
 */
module Middleware {
  import opened Wrappers
  import opened Text
  import opened Values
  import opened ApiStore
  import opened UserSchema

  /** The paths served without authentication, compared by plain equality. */
  const PublicRoutes: seq<string> := [
    "/", "/public", "/v1/public/login", "/docs", "/redoc", "/openapi.json", "/favicon.ico",
    "/v1/public/subscriptions", "/v1/public/cluster-status", "/v1/websocket/{user_id}"]

  predicate IsPublic(path: string) {
    path in PublicRoutes
  }

  /**
   * Membership is exact: the websocket entry is a template that no real
   * path equals, and a path under "/v1/public" is not public unless listed.
   */
  lemma PublicRouteExamples()
    ensures IsPublic("/v1/public/cluster-status") && IsPublic("/docs")
    ensures !IsPublic("/v1/websocket/42")
    ensures !IsPublic("/v1/public/other")
    ensures !IsPublic("/v1/public/login/")
  {
    assert PublicRoutes[2] == "/v1/public/login";
    assert "/v1/websocket/42"[..14] == "/v1/websocket/";
    assert forall i :: 0 <= i < |PublicRoutes| ==> PublicRoutes[i] != "/v1/websocket/42" by {
      assert "/v1/websocket/42"[14] == '4';
      assert PublicRoutes[9][14] == '{';
    }
    assert forall i :: 0 <= i < |PublicRoutes| ==> PublicRoutes[i] != "/v1/public/other" by {
      assert "/v1/public/other"[11] == 'o';
      assert PublicRoutes[2][11] == 'l' && PublicRoutes[7][11] == 's' && PublicRoutes[8][11] == 'c';
    }
    assert forall i :: 0 <= i < |PublicRoutes| ==> PublicRoutes[i] != "/v1/public/login/" by {
      assert |"/v1/public/login/"| == 17;
    }
  }

  const Bearer := "Bearer "

  /** Whether `sep` occurs in `s` at index `j`. */
  predicate OccursAt(s: string, sep: string, j: nat) {
    j + |sep| <= |s| && s[j..j + |sep|] == sep
  }

  /** The first index at or after `i` where `sep` occurs, or `|s|` when there is none. */
  function FindFrom(s: string, sep: string, i: nat): (j: nat)
    requires i <= |s| && |sep| > 0
    ensures i <= j <= |s|
    ensures j < |s| ==> OccursAt(s, sep, j)
    ensures forall k :: i <= k < j ==> !OccursAt(s, sep, k)
    decreases |s| - i
  {
    if i == |s| then |s|
    else if OccursAt(s, sep, i) then i
    else FindFrom(s, sep, i + 1)
  }

  /**
   * `authorization_header.split("Bearer ")[1]` for a header that starts with
   * "Bearer ": the text after it, up to the next occurrence of "Bearer ".
   * None for a header that is missing, empty or does not start so.
   */
  function BearerToken(header: string): (r: Option<string>)
    ensures r.Some? <==> StartsWith(header, Bearer)
    ensures r.Some? ==> StartsWith(header, Bearer + r.value)
    ensures r.Some? ==> forall k :: |Bearer| <= k < |Bearer| + |r.value| ==> !OccursAt(header, Bearer, k)
    ensures r.Some? ==> |Bearer| + |r.value| == |header| || OccursAt(header, Bearer, |Bearer| + |r.value|)
  {
    if !StartsWith(header, Bearer) then None
    else
      var j := FindFrom(header, Bearer, |Bearer|);
      assert header[..|Bearer| + (j - |Bearer|)] == Bearer + header[|Bearer|..j];
      Some(header[|Bearer|..j])
  }

  /** A token that holds no "Bearer " is read back whole. */
  lemma BearerTokenRoundTrip(t: string)
    requires forall k :: 0 <= k < |t| ==> !OccursAt(t, Bearer, k)
    ensures BearerToken(Bearer + t) == Some(t)
  {
    var h := Bearer + t;
    assert h[..|Bearer|] == Bearer;
    var j := FindFrom(h, Bearer, |Bearer|);
    if j < |h| {
      assert h[j..j + |Bearer|] == t[j - |Bearer|..j - |Bearer| + |Bearer|];
      assert OccursAt(t, Bearer, j - |Bearer|);
      assert false;
    }
    assert StartsWith(h, Bearer);
    assert BearerToken(h) == Some(h[|Bearer|..j]);
    assert h[|Bearer|..j] == t;
  }

  /** A second "Bearer " cuts the token short. */
  lemma SecondBearerCutsToken()
    ensures BearerToken("Bearer a Bearer b") == Some("a ")
    ensures BearerToken("bearer a") == None && BearerToken("") == None
  {
    var h := "Bearer a Bearer b";
    assert OccursAt(h, Bearer, 9) by {
      assert h[9..16] == Bearer;
    }
    assert !OccursAt(h, Bearer, 7) by {
      assert h[7] == 'a';
    }
    assert !OccursAt(h, Bearer, 8) by {
      assert h[8] == ' ';
    }
    assert FindFrom(h, Bearer, 7) == 9;
    assert h[7..9] == "a ";
    assert "bearer a"[0] == 'b';
  }

  /** What decoding the token gives: its claims, or the kind of exception it raised. */
  datatype Decoded = Valid(claims: Claims) | Expired | Invalid | DecodeFailure

  /** The middleware's verdict: hand the request on (with the user attached, if any) or answer it. */
  datatype Gate = Forward(user: Option<User>) | Refuse(response: Response)

  /** The index of the first stored user whose "email" is `email`. */
  function UserByEmail(users: seq<map<string, string>>, email: string): (r: Option<nat>)
    ensures r.Some? ==> r.value < |users| && "email" in users[r.value] && users[r.value]["email"] == email
    ensures r.Some? ==> forall i :: 0 <= i < r.value ==> !("email" in users[i] && users[i]["email"] == email)
    ensures r.None? <==> !HasUserWith(users, "email", email)
  {
    if users == [] then None
    else if "email" in users[0] && users[0]["email"] == email then Some(0)
    else
      var rest := UserByEmail(users[1..], email);
      assert forall i :: 1 <= i < |users| ==> users[i] == users[1..][i - 1];
      if rest.None? then None
      else Some(rest.value + 1)
  }

  /**
   * `check_user`: the user stored under the token's e-mail, or a new record
   * built from the claims and inserted. A token without "email" raises, and
   * so does an insert whose "_id" is already taken.
   */
  method CheckUser(db: Database, claims: Claims) returns (r: Option<User>)
    modifies db
    ensures db.clusters == old(db.clusters) && db.subscriptions == old(db.subscriptions)
    ensures db.hostClusters == old(db.hostClusters) && db.events == old(db.events)
    ensures "email" !in claims.fields ==> r.None? && db.users == old(db.users)
    ensures "email" in claims.fields ==>
      var found := UserByEmail(old(db.users), claims.fields["email"]);
      var built := UserFromKeycloakDict(claims.fields);
      && (found.Some? ==> r == Some(UserFromUserDict(old(db.users)[found.value])) && db.users == old(db.users))
      && (found.None? && HasUserWith(old(db.users), "_id", built.id) ==> r.None? && db.users == old(db.users))
      && (found.None? && !HasUserWith(old(db.users), "_id", built.id) ==>
            r == Some(built) && db.users == old(db.users) + [UserToDoc(built)])
  {
    if "email" !in claims.fields {
      return None;
    }
    var found := UserByEmail(db.users, claims.fields["email"]);
    var user := UserFromKeycloakDict(claims.fields);
    if found.None? {
      if HasUserWith(db.users, "_id", user.id) {
        return None;
      }
      db.users := db.users + [UserToDoc(user)];
      return Some(user);
    }
    return Some(UserFromUserDict(db.users[found.value]));
  }

  /** A user appended under an e-mail no stored user has is the one found for it. */
  lemma AppendedUserFound(users: seq<map<string, string>>, doc: map<string, string>, email: string)
    requires !HasUserWith(users, "email", email) && "email" in doc && doc["email"] == email
    ensures UserByEmail(users + [doc], email) == Some(|users|)
  {
    var us := users + [doc];
    assert us[|users|] == doc;
    assert HasUserWith(us, "email", email);
    assert forall i :: 0 <= i < |users| ==> us[i] == users[i];
  }

  /**
   * A user stored on a first request is found by e-mail on the next one and
   * read back as the same record.
   */
  lemma StoredUserFoundAgain(users: seq<map<string, string>>, claims: Claims)
    requires "email" in claims.fields && !HasUserWith(users, "email", claims.fields["email"])
    ensures var u := UserFromKeycloakDict(claims.fields);
            && UserByEmail(users + [UserToDoc(u)], claims.fields["email"]) == Some(|users|)
            && UserFromUserDict((users + [UserToDoc(u)])[|users|]) == u
  {
    var u := UserFromKeycloakDict(claims.fields);
    AppendedUserFound(users, UserToDoc(u), claims.fields["email"]);
    assert (users + [UserToDoc(u)])[|users|] == UserToDoc(u);
    UserDocRoundTrip(u);
  }

  /**
   * Two tokens without "sid" both get the fixed default id, so once one such
   * user is stored, a second one with another e-mail cannot be inserted.
   */
  lemma SidlessUsersCollide(users: seq<map<string, string>>, first: Claims, second: Claims)
    requires "sid" !in first.fields && "sid" !in second.fields
    ensures HasUserWith(users + [UserToDoc(UserFromKeycloakDict(first.fields))], "_id",
                        UserFromKeycloakDict(second.fields).id)
  {
    var us := users + [UserToDoc(UserFromKeycloakDict(first.fields))];
    assert us[|users|]["_id"] == DefaultKeycloakId;
  }

  /**
   * `validate_keycloak_token`. `decoded` is the outcome of decoding the
   * token taken from the header; it is consulted only when the header has
   * the right shape. An exception from `check_user` is answered 500.
   */
  method ValidateKeycloakToken(db: Database, path: string, header: string, decoded: Decoded) returns (g: Gate)
    modifies db
    ensures db.clusters == old(db.clusters) && db.subscriptions == old(db.subscriptions)
    ensures db.hostClusters == old(db.hostClusters) && db.events == old(db.events)
    ensures IsPublic(path) ==> g == Forward(None) && db.users == old(db.users)
    ensures !IsPublic(path) && BearerToken(header).None? ==>
              g == Refuse(Raised(401, "Missing or invalid Authorization header")) && db.users == old(db.users)
    ensures !IsPublic(path) && BearerToken(header).Some? ==>
              && (decoded.Expired? ==> g == Refuse(Reply(false, 401, "Token has expired", JNull)))
              && (decoded.Invalid? ==> g == Refuse(Reply(false, 401, "Token is invalid", JNull)))
              && (decoded.DecodeFailure? ==> g == Refuse(Reply(false, 500, "Internal Server Error", JNull)))
              && (!decoded.Valid? ==> db.users == old(db.users))
    ensures !IsPublic(path) && BearerToken(header).Some? && decoded.Valid? && "email" !in decoded.claims.fields ==>
              g == Refuse(Reply(false, 500, "Internal Server Error", JNull)) && db.users == old(db.users)
    ensures !IsPublic(path) && BearerToken(header).Some? && decoded.Valid? && "email" in decoded.claims.fields ==>
      var found := UserByEmail(old(db.users), decoded.claims.fields["email"]);
      var built := UserFromKeycloakDict(decoded.claims.fields);
      && (found.Some? ==> g == Forward(Some(UserFromUserDict(old(db.users)[found.value]))) && db.users == old(db.users))
      && (found.None? && HasUserWith(old(db.users), "_id", built.id) ==>
            g == Refuse(Reply(false, 500, "Internal Server Error", JNull)) && db.users == old(db.users))
      && (found.None? && !HasUserWith(old(db.users), "_id", built.id) ==>
            g == Forward(Some(built)) && db.users == old(db.users) + [UserToDoc(built)])
    ensures g.Forward? && g.user.Some? ==> !IsPublic(path) && decoded.Valid? && "email" in decoded.claims.fields
    ensures g.Forward? && !IsPublic(path) ==> g.user.Some?
  {
    if IsPublic(path) {
      return Forward(None);
    }
    var token := BearerToken(header);
    if token.None? {
      return Refuse(Raised(401, "Missing or invalid Authorization header"));
    }
    match decoded
    case Expired => g := Refuse(Reply(false, 401, "Token has expired", JNull));
    case Invalid => g := Refuse(Reply(false, 401, "Token is invalid", JNull));
    case DecodeFailure => g := Refuse(Reply(false, 500, "Internal Server Error", JNull));
    case Valid(claims) =>
      var user := CheckUser(db, claims);
      if user.None? {
        g := Refuse(Reply(false, 500, "Internal Server Error", JNull));
      } else {
        g := Forward(user);
      }
  }
}
