/**
 * The authentication gate: `authenticate(group)`, the `authenticated` decorator, and the
 * two responses it can send back, the identity-provider redirect and the logout.
 */
module Auth {
  import opened Wrappers
  import opened JsonData
  import opened Http
  import opened Config
  import opened Dicts
  import opened Query

  /** The payload of a verified token. */
  type Claims = Dict<Json>

  /** What `jwt_decode(token, USER_POOL_ID)` does with a token. */
  datatype Decoded =
    | Verified(claims: Claims)
    | Expired                    // jwt.ExpiredSignatureError
    | BadSignature               // jose.exceptions.JWSSignatureError
    | OtherError(reason: string) // any other exception, which nobody catches

  /** `authenticate` returns None (Allow) or a response, or raises. */
  datatype Gate = Allow | Deny(response: Response) | Crash(reason: string)

  const CookieName := "accessToken"

  /** The page the identity provider redirects back to. */
  function RedirectUri(env: Env): string
  {
    Fmt(SiteUrl(env)) + "/login"
  }

  /**
   * The parameters of the hosted-login URL, an authorization request of the
   * authorization-code grant, in the order the URL lists them.
   */
  function AuthorizationParams(env: Env): Dict<string>
  {
    [("response_type", "code"), ("client_id", Fmt(env.clientId)), ("redirect_uri", RedirectUri(env))]
  }

  /** `f"{AUTH_PATH}/login?response_type=code&client_id={CLIENT_ID}&redirect_uri={redirect_uri}"`. */
  function AuthorizationUrl(env: Env): string
  {
    Fmt(env.authPath) + "/login?" + QueryString(AuthorizationParams(env))
  }

  /** `auth_redirect()`. */
  function AuthRedirect(env: Env): Response
  {
    Redirect(AuthorizationUrl(env), 302, None)
  }

  /** `logout()`: back to the login page, with the token cookie emptied and expired. */
  function Logout(): Response
  {
    Redirect("/login", 302, Some(Cookie(CookieName, "", Some(0))))
  }

  /** The cookie holds a non-empty token. */
  predicate HasToken(cookie: Option<string>)
  {
    cookie.Some? && cookie.value != ""
  }

  /** Python's `set(...)` cannot hold lists or dicts. */
  predicate Hashable(j: Json)
  {
    !j.JArray? && !j.JObject?
  }

  /**
   * `set(decoded.get("cognito:groups", []))`, the strings it can contain: None when Python's
   * `set` raises (a number, boolean or null claim, or a list with a list or dict inside).
   */
  function GroupSet(claims: Claims): Option<set<string>>
  {
    var claim: Option<Json> := Get(claims, "cognito:groups");
    match claim
    case None => Some({})
    case Some(JArray(items)) =>
      if forall i :: 0 <= i < |items| ==> Hashable(items[i])
      then Some(set i | 0 <= i < |items| && items[i].JString? :: items[i].s)
      else None
    case Some(JString(s)) => Some(set i | 0 <= i < |s| :: [s[i]])
    case Some(JObject(fields)) => Some(set i | 0 <= i < |fields| :: fields[i].0)
    case Some(_) => None
  }

  /** The groups a token grants: its `cognito:groups` claim as a set, empty when the claim is absent. */
  predicate InGroups(claims: Claims, group: string)
  {
    GroupSet(claims).Some? && group in GroupSet(claims).value
  }

  /**
   * When `authenticate(group)` lets a request through: locally always; otherwise only with
   * a token that verifies, and then when authorization is off, the group is "guest", or the
   * token's groups contain it.
   */
  predicate Permits(env: Env, group: string, cookie: Option<string>, decode: string -> Decoded)
  {
    RunningLocal(env)
    || (HasToken(cookie) && decode(cookie.value).Verified?
        && (DisableAuth(env) || group == "guest" || InGroups(decode(cookie.value).claims, group)))
  }

  /** `authenticate(group)`. */
  function Authenticate(env: Env, group: string, cookie: Option<string>, decode: string -> Decoded): (g: Gate)
    ensures g == Allow <==> Permits(env, group, cookie, decode)
    ensures RunningLocal(env) ==> g == Allow
    ensures !RunningLocal(env) && !HasToken(cookie) ==> g == Deny(AuthRedirect(env))
    ensures !RunningLocal(env) && HasToken(cookie) && decode(cookie.value).Expired? ==> g == Deny(AuthRedirect(env))
    ensures g == Deny(Logout())
            <==> !RunningLocal(env) && HasToken(cookie) && decode(cookie.value) == BadSignature
    ensures g.Crash? <==>
              !RunningLocal(env) && HasToken(cookie)
              && (decode(cookie.value).OtherError?
                  || (decode(cookie.value).Verified? && !DisableAuth(env) && group != "guest"
                      && GroupSet(decode(cookie.value).claims).None?))
    ensures g.Deny? ==> g.response in {AuthRedirect(env), Logout()}
  {
    if RunningLocal(env) then Allow
    else if !HasToken(cookie) then Deny(AuthRedirect(env))
    else
      match decode(cookie.value)
      case Expired => Deny(AuthRedirect(env))
      case BadSignature => Deny(Logout())
      case OtherError(reason) => Crash(reason)
      case Verified(claims) =>
        if DisableAuth(env) || group == "guest" then Allow
        else match GroupSet(claims)
          case None => Crash("TypeError: cognito:groups is not a collection of strings")
          case Some(groups) => if group in groups then Allow else Deny(AuthRedirect(env))
  }

  /**
   * A handler wrapped by `authenticated(group, redirect)`: the handler runs only when the
   * gate allows; otherwise the gate's response is passed on, or 401 when `redirect` is off.
   */
  function Authenticated(env: Env, group: string, redirect: bool, cookie: Option<string>,
                         decode: string -> Decoded, handler: () -> Response): Response
  {
    match Authenticate(env, group, cookie, decode)
    case Allow => handler()
    case Deny(response) => if redirect then response else Abort(401)
    case Crash(reason) => ServerError(reason)
  }

  /** Off Lambda the gate decides without looking at the cookie or the decoder. */
  lemma LocalIgnoresCredentials(env: Env, group: string, c1: Option<string>, c2: Option<string>,
                                d1: string -> Decoded, d2: string -> Decoded)
    requires RunningLocal(env)
    ensures Authenticate(env, group, c1, d1) == Authenticate(env, group, c2, d2) == Allow
  {
  }

  /**
   * Without a token the login redirect comes back for every group, "guest" included, and
   * whether or not authorization is disabled: the token check precedes the group check.
   */
  lemma NoTokenRedirectsEveryGroup(env: Env, group: string, cookie: Option<string>, decode: string -> Decoded)
    requires !RunningLocal(env) && !HasToken(cookie)
    ensures Authenticate(env, group, cookie, decode) == Deny(AuthRedirect(env))
    ensures !Permits(env, "guest", cookie, decode)
  {
  }

  /**
   * The handler is reached exactly when the gate permits. A refusal hands back the gate's
   * own response, or 401 when `redirect` is off, whatever the handler; an exception in the
   * gate escapes.
   */
  lemma AuthenticatedRunsHandlerIffPermitted(
    env: Env, group: string, redirect: bool, cookie: Option<string>, decode: string -> Decoded,
    handler: () -> Response)
    ensures Permits(env, group, cookie, decode) ==>
              Authenticated(env, group, redirect, cookie, decode, handler) == handler()
    ensures Authenticate(env, group, cookie, decode).Deny? ==>
              Authenticated(env, group, redirect, cookie, decode, handler)
              == if redirect then Authenticate(env, group, cookie, decode).response else Abort(401)
    ensures Authenticate(env, group, cookie, decode).Crash? ==>
              Authenticated(env, group, redirect, cookie, decode, handler)
              == ServerError(Authenticate(env, group, cookie, decode).reason)
    ensures !Permits(env, group, cookie, decode) ==>
              Authenticate(env, group, cookie, decode).Deny? || Authenticate(env, group, cookie, decode).Crash?
  {
  }
}
