/**
 * `login()`: the redirect end point of the OAuth 2.0 authorization-code grant. Without a
 * code it sends the browser to the hosted login page (the authorization request of section
 * 4.1.1 of RFC 6749); with one it exchanges the code at the token end point (the access
 * token request of section 4.1.3) and stores the token it gets in the `accessToken` cookie.
 */
module Login {
  import opened Wrappers
  import opened JsonData
  import opened Http
  import opened Config
  import opened Dicts
  import opened Query
  import opened Strings
  import opened Auth

  /** The POST to `{AUTH_PATH}/oauth2/token`, with HTTP Basic client authentication. */
  datatype TokenRequest = TokenRequest(
    url: string,
    grantType: string,           // form field grant_type
    code: string,                // form field code
    clientId: Option<string>,    // form field client_id
    redirectUri: string,         // form field redirect_uri
    basicAuth: (Option<string>, Option<string>),
    contentType: string)

  /** What the token end point answered: a body that is not JSON, or the decoded JSON. */
  datatype TokenReply = NotJson | Body(body: Json)

  /**
   * The hosted-login URL is the login page followed by `response_type=code`, the client id
   * and the redirect URI, and that query reads back unchanged when neither value holds `&`.
   */
  lemma AuthorizationUrlIsRequest(env: Env)
    requires '&' !in Fmt(env.clientId) && '&' !in RedirectUri(env)
    ensures AuthorizationUrl(env)
            == Fmt(env.authPath) + "/login?" + ("response_type" + "=" + "code"
               + "&" + "client_id" + "=" + Fmt(env.clientId)
               + "&" + "redirect_uri" + "=" + RedirectUri(env))
    ensures ParseQuery(QueryString(AuthorizationParams(env))) == Some(AuthorizationParams(env))
  {
    AuthorizationQuery(env);
    QueryRoundTrip(AuthorizationParams(env));
  }

  lemma AuthorizationQuery(env: Env)
    ensures QueryString(AuthorizationParams(env))
            == "response_type" + "=" + "code"
               + "&" + "client_id" + "=" + Fmt(env.clientId)
               + "&" + "redirect_uri" + "=" + RedirectUri(env)
  {
    var p := Pieces(AuthorizationParams(env));
    assert p[2..] == [p[2]];
    assert p[1..][1..] == p[2..];
    assert Join("&", p[1..]) == p[1] + "&" + p[2];
    assert Join("&", p) == p[0] + "&" + (p[1] + "&" + p[2]);
  }

  /** The access token request for `code`. */
  function TokenRequestFor(env: Env, code: string): TokenRequest
  {
    TokenRequest(
      Fmt(env.authPath) + "/oauth2/token",
      "authorization_code", code, env.clientId, RedirectUri(env),
      (env.clientId, env.clientSecret),
      "application/x-www-form-urlencoded")
  }

  /**
   * The token request names the authorization-code grant, carries the code, and repeats
   * exactly the redirect URI of the authorization request, as the token end point demands.
   */
  lemma TokenRequestMatchesAuthorization(env: Env, code: string)
    ensures TokenRequestFor(env, code).grantType == "authorization_code"
    ensures TokenRequestFor(env, code).code == code
    ensures Get(AuthorizationParams(env), "redirect_uri") == Some(TokenRequestFor(env, code).redirectUri)
    ensures Get(AuthorizationParams(env), "client_id") == Some(Fmt(TokenRequestFor(env, code).clientId))
  {
    var ps := AuthorizationParams(env);
    assert "response_type" != "redirect_uri" by { assert "response_type"[2] != "redirect_uri"[2]; }
    assert "client_id" != "redirect_uri" by { assert "client_id"[0] != "redirect_uri"[0]; }
    assert "response_type" != "client_id" by { assert "response_type"[0] != "client_id"[0]; }
    assert IndexOf(ps[2..], "redirect_uri") == Some(0);
    assert ps[1..][1..] == ps[2..];
    assert IndexOf(ps[1..], "redirect_uri") == Some(1);
    assert IndexOf(ps, "redirect_uri") == Some(2);
    assert IndexOf(ps[1..], "client_id") == Some(0);
    assert IndexOf(ps, "client_id") == Some(1);
  }

  /** `login()`, given the query arguments and the token end point's answer to a request. */
  function Login(env: Env, args: Dict<string>, exchange: TokenRequest -> TokenReply): (r: Response)
    ensures !HasToken(Get(args, "code")) ==> r == AuthRedirect(env)
    ensures r.Redirect? ==> r.code == 302
    ensures r.Redirect? && r.setCookie.Some? ==>
              r.location == "/index.html"
              && HasToken(Get(args, "code"))
              && exchange(TokenRequestFor(env, Get(args, "code").value)).Body?
              && r.setCookie.value.name == CookieName && r.setCookie.value.value != ""
              && r.setCookie.value.expires.None?
    ensures r.Redirect? && r.setCookie.None? ==> r == AuthRedirect(env)
    ensures !r.Abort?
    ensures HasToken(Get(args, "code")) ==>
              var reply := exchange(TokenRequestFor(env, Get(args, "code").value));
              && (reply.NotJson? ==> r.ServerError?)
              && (reply.Body? && !reply.body.JObject? ==> r.ServerError?)
              && (reply.Body? && reply.body.JObject? ==>
                    var token: Option<Json> := Get(reply.body.fields, "access_token");
                    && (token.None? || !Truthy(token.value) ==> r == AuthRedirect(env))
                    && (token.Some? && token.value.JString? && token.value.s != "" ==>
                          r == Redirect("/index.html", 302, Some(Cookie(CookieName, token.value.s, None))))
                    && (token.Some? && Truthy(token.value) && !token.value.JString? ==> r.ServerError?))
  {
    var code := Get(args, "code");
    if !HasToken(code) then AuthRedirect(env)
    else
      match exchange(TokenRequestFor(env, code.value))
      case NotJson => ServerError("JSONDecodeError: token end point answer is not JSON")
      case Body(JObject(fields)) =>
        var token: Option<Json> := Get(fields, "access_token");
        if token.None? || !Truthy(token.value) then AuthRedirect(env)
        else if token.value.JString? then
          Redirect("/index.html", 302, Some(Cookie(CookieName, token.value.s, None)))
        else ServerError("access token is not a string")
      case Body(_) => ServerError("AttributeError: token end point answer is not an object")
  }

  /**
   * Off Lambda, a visit to `/login` without a code and a gated request without a token
   * send the browser to the same place: the hosted login page.
   */
  lemma LoginWithoutCodeIsGateRedirect(env: Env, args: Dict<string>, exchange: TokenRequest -> TokenReply,
                                       group: string, cookie: Option<string>, decode: string -> Decoded)
    requires !HasToken(Get(args, "code"))
    requires !RunningLocal(env) && !HasToken(cookie)
    ensures Login(env, args, exchange) == Authenticate(env, group, cookie, decode).response
    ensures Login(env, args, exchange).location == AuthorizationUrl(env)
  {
  }
}
