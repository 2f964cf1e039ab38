/**
 * The cluster API's user records: the claims of a decoded Keycloak token,
 * the `User` model, and the two builders `user_from_keycloak_dict` and
 * `user_from_user_dict`, which fill each field from a dict with `.get` and
 * a default.
 */
module UserSchema {
  import opened Wrappers

  /** A user: its id (stored as "_id"), display name, e-mail and user name. */
  datatype User = User(id: string, name: string, email: string, userName: string)

  /**
   * The claims of a decoded token: its string-valued claims, and the roles
   * under `realm_access`, None when the token has no `realm_access`.
   */
  datatype Claims = Claims(fields: map<string, string>, realmRoles: Option<seq<string>>)

  /**
   * The role check of the cluster routes: a token with `realm_access` whose
   * roles lack "create-cluster". A token without `realm_access` is never
   * refused by it.
   */
  predicate Forbidden(claims: Claims) {
    claims.realmRoles.Some? && "create-cluster" !in claims.realmRoles.value
  }

  /** The id given to a Keycloak user whose token carries no "sid". */
  const DefaultKeycloakId := "2122fd0b-d673-41a9-a2d2-36133d5eaa78"
  const DefaultEmail := "a@b.com"
  const DefaultName := "user"

  /** `d.get(k, default)`. */
  function Get(d: map<string, string>, k: string, default: string): string {
    if k in d then d[k] else default
  }

  /** `user_from_keycloak_dict(res)`. */
  function UserFromKeycloakDict(res: map<string, string>): (u: User)
    ensures "sid" in res ==> u.id == res["sid"]
    ensures "sid" !in res ==> u.id == DefaultKeycloakId
    ensures "name" in res ==> u.name == res["name"]
    ensures "name" !in res && "preferred_username" in res ==> u.name == res["preferred_username"]
    ensures "name" !in res && "preferred_username" !in res ==> u.name == DefaultName
    ensures "email" in res ==> u.email == res["email"]
    ensures "email" !in res ==> u.email == DefaultEmail
    ensures "preferred_username" in res ==> u.userName == res["preferred_username"]
    ensures "preferred_username" !in res ==> u.userName == DefaultName
  {
    User(Get(res, "sid", DefaultKeycloakId),
         Get(res, "name", Get(res, "preferred_username", DefaultName)),
         Get(res, "email", DefaultEmail),
         Get(res, "preferred_username", DefaultName))
  }

  /** `user_from_user_dict(res)` for a stored user document. */
  function UserFromUserDict(res: map<string, string>): (u: User)
    ensures "_id" in res ==> u.id == res["_id"]
    ensures "_id" !in res ==> u.id == ""
    ensures "name" in res ==> u.name == res["name"]
    ensures "name" !in res && "userName" in res ==> u.name == res["userName"]
    ensures "name" !in res && "userName" !in res ==> u.name == DefaultName
    ensures "email" in res ==> u.email == res["email"]
    ensures "email" !in res ==> u.email == DefaultEmail
    ensures "userName" in res ==> u.userName == res["userName"]
    ensures "userName" !in res ==> u.userName == DefaultName
  {
    User(Get(res, "_id", ""),
         Get(res, "name", Get(res, "userName", DefaultName)),
         Get(res, "email", DefaultEmail),
         Get(res, "userName", DefaultName))
  }

  /** The document `jsonable_encoder(user)` stores: the id under its alias "_id". */
  function UserToDoc(u: User): (d: map<string, string>)
    ensures d.Keys == {"_id", "name", "email", "userName"}
  {
    map["_id" := u.id, "name" := u.name, "email" := u.email, "userName" := u.userName]
  }

  /**
   * A stored user reads back as the user that was stored, so a user seen
   * for the second time gets the record built the first time.
   */
  lemma UserDocRoundTrip(u: User)
    ensures UserFromUserDict(UserToDoc(u)) == u
  {
  }

  /**
   * A key that is present is used as it is, even when its value is empty:
   * an empty "name" does not fall back to the user name.
   */
  lemma PresentEmptyValueWins()
    ensures UserFromKeycloakDict(map["name" := "", "preferred_username" := "bob"]).name == ""
    ensures UserFromUserDict(map["name" := "", "userName" := "bob"]).name == ""
    ensures UserFromKeycloakDict(map["preferred_username" := "bob"]).name == "bob"
    ensures UserFromKeycloakDict(map[]) == User(DefaultKeycloakId, DefaultName, DefaultEmail, DefaultName)
    ensures UserFromUserDict(map[]) == User("", DefaultName, DefaultEmail, DefaultName)
  {
  }
}
