/**
 * The user-directory pieces of the handler that are more than a call: the group effect of
 * `set_user_role`, the attribute conversion of `_augment_user`, and `get_identity`.
 * Cognito itself is an input.
 */
module Users {
  import opened Wrappers
  import opened JsonData
  import opened Http
  import opened Config
  import opened Dicts
  import opened Auth

  // set_user_role

  /** A directory user's group memberships, changed one add or remove call at a time. */
  class CognitoUser {
    const username: string
    var groups: set<string>

    constructor (username: string, groups: set<string>)
      ensures this.username == username && this.groups == groups
    {
      this.username := username;
      this.groups := groups;
    }

    /** `admin_add_user_to_group`. */
    method AddToGroup(group: string)
      modifies this
      ensures groups == old(groups) + {group}
    {
      groups := groups + {group};
    }

    /** `admin_remove_user_from_group`; removing a group the user is not in changes nothing. */
    method RemoveFromGroup(group: string)
      modifies this
      ensures groups == old(groups) - {group}
    {
      groups := groups - {group};
    }

    /** The add and remove calls of `set_user_role` for `role`. */
    method SetUserRole(role: string)
      modifies this
      ensures groups == RoleEffect(old(groups), role)
    {
      if role == "guest" {
        RemoveFromGroup("user");
        RemoveFromGroup("admin");
      } else if role == "user" {
        AddToGroup("user");
        RemoveFromGroup("admin");
      } else if role == "admin" {
        AddToGroup("user");
        AddToGroup("admin");
      }
    }
  }

  /**
   * The memberships after `set_user_role(role)`: "guest" leaves neither "user" nor "admin",
   * "user" leaves "user" only, "admin" leaves both; other groups are untouched, and any
   * other role changes nothing.
   */
  function RoleEffect(groups: set<string>, role: string): (r: set<string>)
    ensures r - {"user", "admin"} == groups - {"user", "admin"}
    ensures role == "guest" ==> "user" !in r && "admin" !in r
    ensures role == "user" ==> "user" in r && "admin" !in r
    ensures role == "admin" ==> "user" in r && "admin" in r
    ensures role !in {"guest", "user", "admin"} ==> r == groups
  {
    if role == "guest" then groups - {"user"} - {"admin"}
    else if role == "user" then groups + {"user"} - {"admin"}
    else if role == "admin" then groups + {"user"} + {"admin"}
    else groups
  }

  /** The three roles, ordered by what they may do. */
  function Rank(role: string): int
  {
    if role == "admin" then 2 else if role == "user" then 1 else 0
  }

  /** A token whose `cognito:groups` claim lists `names`. */
  function GroupsClaims(names: seq<string>): Claims
  {
    [("cognito:groups", JArray(seq(|names|, i requires 0 <= i < |names| => JString(names[i]))))]
  }

  lemma GroupSetOfClaims(names: seq<string>)
    ensures GroupSet(GroupsClaims(names)) == Some(set x | x in names)
  {
    var items := seq(|names|, i requires 0 <= i < |names| => JString(names[i]));
    assert IndexOf(GroupsClaims(names), "cognito:groups") == Some(0);
    var s := set i | 0 <= i < |items| && items[i].JString? :: items[i].s;
    assert s == set x | x in names by {
      forall x | x in names ensures x in s {
        var i :| 0 <= i < |names| && names[i] == x;
        assert items[i].s == x;
      }
    }
  }

  /**
   * With authorization on, a token listing exactly the groups `set_user_role(role)` leaves
   * passes the gate for group `g` precisely when the role ranks at least as high as `g`.
   */
  lemma RoleDecidesAccess(env: Env, before: set<string>, role: string, g: string,
                                             names: seq<string>, token: string, decode: string -> Decoded)
    requires !RunningLocal(env) && !DisableAuth(env)
    requires role in {"guest", "user", "admin"} && g in {"guest", "user", "admin"}
    requires (set x | x in names) == RoleEffect(before, role)
    requires token != "" && decode(token) == Verified(GroupsClaims(names))
    ensures Permits(env, g, Some(token), decode) <==> Rank(role) >= Rank(g)
  {
    GroupSetOfClaims(names);
  }

  // _augment_user

  /** `ua["Name"]`, `ua["Value"]` of each attribute, or None when one of them cannot be read. */
  function AttributePairs(attrs: seq<Json>): (r: Option<seq<(string, Json)>>)
    ensures r.Some? ==> |r.value| == |attrs|
    ensures r.Some? ==> forall i :: 0 <= i < |attrs| ==>
              attrs[i].JObject?
              && Get(attrs[i].fields, "Name") == Some(JString(r.value[i].0))
              && Get(attrs[i].fields, "Value") == Some(r.value[i].1)
  {
    if attrs == [] then Some([])
    else
      var a := attrs[0];
      if !a.JObject? then None
      else
        var name: Option<Json> := Get(a.fields, "Name");
        var value: Option<Json> := Get(a.fields, "Value");
        if name.None? || !name.value.JString? || value.None? then None
        else match AttributePairs(attrs[1..])
          case None => None
          case Some(rest) => Some([(name.value.s, value.value)] + rest)
  }

  /** `{ua["Name"]: ua["Value"] for ua in attributes}`: a later attribute of the same name wins. */
  function AttributeMap(attrs: seq<Json>): (r: Option<Dict<Json>>)
    ensures r.Some? <==> AttributePairs(attrs).Some?
    ensures r.Some? ==> KeysDistinct(r.value)
    ensures r.Some? ==> forall k :: Get(r.value, k) == LastValue(AttributePairs(attrs).value, k)
  {
    match AttributePairs(attrs)
    case None => None
    case Some(pairs) => Some(FromPairs(pairs))
  }

  /** The user record has an attribute list whose every entry has a string name and a value. */
  predicate AttributesReadable(user: Dict<Json>)
  {
    var attrs: Option<Json> := Get(user, "Attributes");
    attrs.Some? && attrs.value.JArray? && AttributeMap(attrs.value.items).Some?
  }

  /**
   * `_augment_user(cognito, user)`: stores the user's groups, or the text of the exception
   * the lookup raised, then replaces the attribute list by a name-to-value object.
   */
  method AugmentUser(user: Dict<Json>, groups: Result<Json, string>) returns (r: Result<Dict<Json>, string>)
    requires KeysDistinct(user)
    ensures r.Failure? <==> !AttributesReadable(user)
    ensures r.Success? ==>
              var attrs := Get(user, "Attributes").value.items;
              && KeysDistinct(r.value)
              && Keys(r.value) == Keys(user) + {if groups.Success? then "Groups" else "exception"}
              && Get(r.value, "Attributes") == Some(JObject(AttributeMap(attrs).value))
              && (groups.Success? ==> Get(r.value, "Groups") == Some(groups.value))
              && (groups.Failure? ==> Get(r.value, "exception") == Some(JString(groups.error)))
              && (groups.Success? ==>
                    forall k :: k != "Attributes" && k != "Groups" ==> Get(r.value, k) == Get(user, k))
              && (groups.Failure? ==>
                    forall k :: k != "Attributes" && k != "exception" ==> Get(r.value, k) == Get(user, k))
  {
    var u := user;
    if groups.Success? {
      u := Put(u, "Groups", groups.value);
    } else {
      u := Put(u, "exception", JString(groups.error));
    }
    var attrs: Option<Json> := Get(u, "Attributes");
    if attrs.None? || !attrs.value.JArray? {
      return Failure("attributes are not a list");
    }
    var converted := AttributeMap(attrs.value.items);
    if converted.None? {
      return Failure("an attribute has no Name or Value");
    }
    u := Put(u, "Attributes", JObject(converted.value));
    r := Success(u);
  }

  // get_identity

  /** What `get_identity` answers off Lambda. */
  function LocalIdentity(): Json
  {
    JObject([("cognito:groups", JArray([JString("user"), JString("admin")])),
             ("username", JString("username")),
             ("attributes", JObject([("email", JString("user@domain.com"))]))])
  }

  /** `["user", "admin"]`, the groups `get_identity` reports when authorization is disabled. */
  function AllGroups(): Json
  {
    JArray([JString("user"), JString("admin")])
  }

  /** The Cognito `list_users` filter for a user name. */
  function UsernameFilter(username: string): string
  {
    "username = \"" + username + "\""
  }

  /**
   * `get_identity()`. `listUsers` answers a `list_users` filter with the users found and
   * `str` is Python's `str()` of the username claim.
   */
  method GetIdentity(env: Env, cookie: Option<string>, decode: string -> Decoded,
                     listUsers: string -> seq<Dict<Json>>, str: Json -> string) returns (resp: Response)
    ensures RunningLocal(env) ==> resp == Reply(LocalIdentity(), 200)
    ensures !RunningLocal(env) && !HasToken(cookie) ==> resp == Reply(Message("No access token."), 401)
    ensures !RunningLocal(env) && HasToken(cookie) && decode(cookie.value) == Expired
            ==> resp == Reply(Message("Signature expired."), 401)
    ensures !RunningLocal(env) && HasToken(cookie) && decode(cookie.value) == BadSignature ==> resp.ServerError?
    ensures !RunningLocal(env) && HasToken(cookie) && decode(cookie.value).OtherError? ==> resp.ServerError?
    ensures resp.Reply? && resp.status == 200 && !RunningLocal(env) && KeysDistinct(decode(cookie.value).claims)
            ==> resp.body.JObject? && KeysDistinct(resp.body.fields)
    ensures !RunningLocal(env) && HasToken(cookie) && decode(cookie.value).Verified? ==>
              var username: Option<Json> := Get(decode(cookie.value).claims, "username");
              if username.None? || !Truthy(username.value) then resp.Reply? && resp.status == 200
              else
                var users := listUsers(UsernameFilter(str(username.value)));
                if users != [] && AttributesReadable(users[0]) then resp.Reply? && resp.status == 200
                else resp.ServerError?
    ensures resp.Reply? && resp.status == 200 && !RunningLocal(env) ==>
              && HasToken(cookie) && decode(cookie.value).Verified?
              && resp.body.JObject?
              && var claims := decode(cookie.value).claims;
              (DisableAuth(env) ==> Get(resp.body.fields, "cognito:groups") == Some(AllGroups()))
              && (!DisableAuth(env) ==> Get(resp.body.fields, "cognito:groups") == Get(claims, "cognito:groups"))
              && var username: Option<Json> := Get(claims, "username");
              (username.None? || !Truthy(username.value) ==>
                 Get(resp.body.fields, "attributes") == Get(claims, "attributes"))
              && (username.Some? && Truthy(username.value) ==>
                    var users := listUsers(UsernameFilter(str(username.value)));
                    users != [] && Get(users[0], "Attributes").Some? && Get(users[0], "Attributes").value.JArray?
                    && AttributeMap(Get(users[0], "Attributes").value.items).Some?
                    && Get(resp.body.fields, "attributes")
                       == Some(JObject(AttributeMap(Get(users[0], "Attributes").value.items).value)))
              && forall k :: k !in {"attributes", "cognito:groups"} ==> Get(resp.body.fields, k) == Get(claims, k)
  {
    if RunningLocal(env) {
      return Reply(LocalIdentity(), 200);
    }
    if !HasToken(cookie) {
      return Reply(Message("No access token."), 401);
    }
    var decoded: Dict<Json>;
    match decode(cookie.value) {
      case Expired => return Reply(Message("Signature expired."), 401);
      case BadSignature => return ServerError("JWSSignatureError");
      case OtherError(reason) => return ServerError(reason);
      case Verified(claims) => decoded := claims;
    }
    var username: Option<Json> := Get(decoded, "username");
    if username.Some? && Truthy(username.value) {
      var users := listUsers(UsernameFilter(str(username.value)));
      if users == [] {
        return ServerError("IndexError: list index out of range");
      }
      var attrs: Option<Json> := Get(users[0], "Attributes");
      if attrs.None? || !attrs.value.JArray? {
        return ServerError("KeyError: 'Attributes'");
      }
      var converted := AttributeMap(attrs.value.items);
      if converted.None? {
        return ServerError("KeyError: 'Name'");
      }
      decoded := Put(decoded, "attributes", JObject(converted.value));
    }
    if DisableAuth(env) {
      decoded := Put(decoded, "cognito:groups", AllGroups());
    }
    resp := Reply(JObject(decoded), 200);
  }
}
