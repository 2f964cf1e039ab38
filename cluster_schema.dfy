/**
 * The cluster API's cluster schema helpers: `is_valid_url_name`, which
 * decides whether a requested cluster name may be used, and
 * `clusters_serializer`, which turns a stored cluster document into the
 * reply shape.
 */
module ClusterSchema {
  import opened Wrappers
  import opened Values
  import opened ServiceSubscription

  const EmptyName := "Name cannot be empty."
  const LongName := "Name is too long"
  const BadCharacters := "Name contains invalid characters. Only letters, digits, hyphens, and underscores are allowed."

  /** A member of the class `[a-zA-Z0-9-_]`. */
  predicate NameChar(c: char) {
    ('a' <= c <= 'z') || ('A' <= c <= 'Z') || ('0' <= c <= '9') || c == '-' || c == '_'
  }

  predicate AllNameChars(s: string) {
    forall i :: 0 <= i < |s| ==> NameChar(s[i])
  }

  /** Whether `[a-zA-Z0-9-_]*$` matches at the start of `s`; `$` also matches before a final newline. */
  function MatchesTail(s: string): bool {
    if s == [] || s == "\n" then true
    else NameChar(s[0]) && MatchesTail(s[1..])
  }

  /** `re.match(r"^[a-zA-Z0-9-_]+$", s)` succeeds. */
  function MatchesPattern(s: string): bool {
    |s| > 0 && NameChar(s[0]) && MatchesTail(s[1..])
  }

  lemma {:induction false} MatchesTailIff(s: string)
    ensures MatchesTail(s) <==> AllNameChars(s) || (|s| > 0 && s[|s| - 1] == '\n' && AllNameChars(s[..|s| - 1]))
  {
    if s != [] && s != "\n" {
      MatchesTailIff(s[1..]);
      assert forall i :: 1 <= i < |s| ==> s[i] == s[1..][i - 1];
      if |s| > 1 {
        assert s[1..][..|s| - 2] == s[..|s| - 1][1..];
      }
    }
  }

  /**
   * The pattern accepts exactly a non-empty run of name characters,
   * optionally followed by one newline.
   */
  lemma PatternIff(s: string)
    ensures MatchesPattern(s) <==>
      (|s| > 0 && AllNameChars(s)) || (|s| > 1 && s[|s| - 1] == '\n' && AllNameChars(s[..|s| - 1]))
  {
    if |s| > 0 {
      MatchesTailIff(s[1..]);
      assert forall i :: 1 <= i < |s| ==> s[i] == s[1..][i - 1];
      if |s| > 1 {
        assert s[1..][..|s| - 2] == s[..|s| - 1][1..];
      }
    }
  }

  /** The pair `(ok, message)` the validator returns. */
  datatype NameCheck = NameCheck(ok: bool, message: Option<string>)

  /** `is_valid_url_name(name)`; None stands for a missing name. */
  function IsValidUrlName(name: Option<string>): (r: NameCheck)
    ensures r.ok <==> r.message.None?
    ensures r.ok <==> name.Some? && 0 < |name.value| <= 255 && MatchesPattern(name.value)
  {
    if name.None? || name.value == "" then NameCheck(false, Some(EmptyName))
    else if |name.value| > 255 then NameCheck(false, Some(LongName))
    else if !MatchesPattern(name.value) then NameCheck(false, Some(BadCharacters))
    else NameCheck(true, None)
  }

  /**
   * The checks run in the order empty, length, characters: an over-long
   * name is reported as too long whatever characters it has.
   */
  lemma CheckOrder(name: Option<string>)
    ensures name.None? || name == Some("") ==> IsValidUrlName(name).message == Some(EmptyName)
    ensures name.Some? && |name.value| > 255 ==> IsValidUrlName(name).message == Some(LongName)
    ensures name.Some? && 0 < |name.value| <= 255 && !MatchesPattern(name.value) ==>
              IsValidUrlName(name).message == Some(BadCharacters)
  {
  }

  /** Exactly 255 name characters pass; a trailing newline passes; a leading digit, '-' or '_' passes. */
  lemma NameExamples()
    ensures IsValidUrlName(Some(seq(255, _ => 'a'))).ok
    ensures !IsValidUrlName(Some(seq(256, _ => 'a'))).ok
    ensures IsValidUrlName(Some("1abc")).ok && IsValidUrlName(Some("-x")).ok && IsValidUrlName(Some("_")).ok
  {
    var s := seq(255, _ => 'a');
    PatternIff(s);
    PatternIff("1abc");
    PatternIff("-x");
    PatternIff("_");
  }

  /** `$` lets one final newline through, but not two; a space is refused. */
  lemma NewlineExamples()
    ensures IsValidUrlName(Some("abc\n")).ok
    ensures !IsValidUrlName(Some("abc\n\n")).ok
    ensures !IsValidUrlName(Some("a b")).ok
  {
    PatternIff("abc\n");
    assert "abc\n"[..3] == "abc";
    PatternIff("abc\n\n");
    assert "abc\n\n"[..4][3] == '\n';
    PatternIff("a b");
    assert "a b"[1] == ' ';
  }

  /** The keys `clusters_serializer` reads, in the order it reads them. */
  const StoredKeys: seq<string> := ["_id", "name", "user_id", "status", "host_cluster_id", "kube_version",
                                    "created", "subscription_id"]

  /**
   * `clusters_serializer(doc)`: eight fields copied, "_id" renamed "id" and
   * "status" written under the key "stauts". A missing field raises KeyError.
   */
  function ClustersSerializer(doc: map<string, Json>): (r: Result<map<string, Json>, KeyError>)
    ensures r.Ok? <==> forall k :: k in StoredKeys ==> k in doc
    ensures r.Err? ==> Some(r.error.key) == FirstMissing(doc, StoredKeys)
    ensures r.Ok? ==> r.value.Keys == {"id", "name", "user_id", "stauts", "host_cluster_id", "kube_version",
                                       "created", "subscription_id"}
    ensures r.Ok? ==> "status" !in r.value && r.value["stauts"] == doc["status"] && r.value["id"] == doc["_id"]
    ensures r.Ok? ==> forall k :: k in StoredKeys && k != "_id" && k != "status" ==> k in r.value && r.value[k] == doc[k]
  {
    match FirstMissing(doc, StoredKeys)
    case Some(k) => Err(KeyError(k))
    case None => Ok(Serialized(doc))
  }

  /** The serialized form of a document holding every stored key. */
  function Serialized(doc: map<string, Json>): (r: map<string, Json>)
    requires forall k :: k in StoredKeys ==> k in doc
    ensures r.Keys == {"id", "name", "user_id", "stauts", "host_cluster_id", "kube_version",
                       "created", "subscription_id"}
    ensures "status" !in r && r["stauts"] == doc["status"] && r["id"] == doc["_id"]
    ensures forall k :: k in StoredKeys && k != "_id" && k != "status" ==> k in r && r[k] == doc[k]
  {
    var ks := StoredKeys;
    assert ks[0] in doc && ks[1] in doc && ks[2] in doc && ks[3] in doc && ks[4] in doc &&
           ks[5] in doc && ks[6] in doc && ks[7] in doc;
    map["id" := doc["_id"], "name" := doc["name"], "user_id" := doc["user_id"], "stauts" := doc["status"],
        "host_cluster_id" := doc["host_cluster_id"], "kube_version" := doc["kube_version"],
        "created" := doc["created"], "subscription_id" := doc["subscription_id"]]
  }
}
