/**
 * The proxy resource `PclusterApiHandler`: every verb is wrapped by
 * `authenticated("user", redirect=False)`; the verbs that change state also require
 * "admin"; the request is then signed and forwarded to `API_BASE_URL`, and the backend's
 * body and status come back unchanged.
 */
module Proxy {
  import opened Wrappers
  import opened JsonData
  import opened Http
  import opened Config
  import opened Dicts
  import opened Query
  import opened Auth
  import opened SigV4

  /** The foreign code the proxy calls, as functions; the transport is a `Backend`. */
  datatype Services = Services(
    decode: string -> Decoded,                   // jwt_decode(token, USER_POOL_ID) in the decorator
    decodeAgain: string -> Decoded,              // the second jwt_decode, in authenticate("admin")
    dumps: Json -> string,                       // json.dumps
    sign: SigningInput -> Option<Dict<string>>)  // SigV4Auth(...).add_auth, then prepare()

  /** What the proxy reads from the inbound request. */
  datatype ProxyRequest = ProxyRequest(
    args: Dict<string>,     // request.args, first value of each key
    headers: Dict<string>,  // request.headers
    cookie: Option<string>, // request.cookies.get("accessToken")
    json: Json)             // request.json

  /**
   * `_get_params(request)`: a copy of the query arguments with `path` popped; the pop
   * raises KeyError when there is no `path`.
   */
  method GetParams(args: Dict<string>) returns (r: Result<Dict<string>, string>)
    requires KeysDistinct(args)
    ensures r.Failure? <==> "path" !in Keys(args)
    ensures r.Success? ==> r.value == Pop(args, "path")
    ensures r.Success? ==> Keys(r.value) == Keys(args) - {"path"}
    ensures r.Success? ==> forall k :: k != "path" ==> Get(r.value, k) == Get(args, k)
  {
    var params := args;
    if Get(params, "path").None? {
      return Failure("KeyError: 'path'");
    }
    params := Pop(params, "path");
    r := Success(params);
  }

  /** Forwarding `path=/v3/clusters/foo&region=us-east-1` forwards exactly `region=us-east-1`. */
  lemma ForwardedParamsExample()
    ensures Pop([("path", "/v3/clusters/foo"), ("region", "us-east-1")], "path") == [("region", "us-east-1")]
  {
    var d := [("path", "/v3/clusters/foo"), ("region", "us-east-1")];
    assert IndexOf(d, "path") == Some(0);
  }

  /**
   * The body DELETE forwards: `request.json` only when a `Content-Type` header is present
   * and a header named `ContentType` (sic) equals `application/json`, otherwise none.
   */
  function DeleteBody(req: ProxyRequest): Json
  {
    if "Content-Type" in Keys(req.headers) && Get(req.headers, "ContentType") == Some("application/json")
    then req.json else JNull
  }

  /** The body each verb forwards. */
  function BodyFor(verb: Verb, req: ProxyRequest): Json
  {
    match verb
    case GET => JNull
    case DELETE => DeleteBody(req)
    case _ => req.json
  }

  /** `return resp.json(), resp.status_code`: a body that is not JSON makes `json()` raise. */
  function Relay(b: BackendResponse): (r: Response)
    ensures r.Reply? <==> b.body.Some?
    ensures r.Reply? ==> r.status == b.status && r.body == b.body.value
    ensures b.body.None? ==> r.ServerError?
  {
    match b.body
    case Some(body) => Reply(body, b.status)
    case None => ServerError("JSONDecodeError: backend body is not JSON")
  }

  /** The request forwarding sends once the gates have passed: none without `path` or when signing fails. */
  function Outgoing(env: Env, svc: Services, verb: Verb, req: ProxyRequest, body: Json): (r: seq<Outbound>)
    ensures |r| <= 1
    ensures r != [] ==>
              && "path" in Keys(req.args)
              && env.apiBaseUrl.Some?
              && r[0].verb == verb
              && r[0].url == env.apiBaseUrl.value + Get(req.args, "path").value + "?"
                             + QueryString(Pop(req.args, "path"))
  {
    if "path" !in Keys(req.args) then []
    else
      match Prepare(verb, env.apiBaseUrl, Get(req.args, "path").value, Pop(req.args, "path"), body, svc.dumps, svc.sign)
      case Failure(_) => []
      case Success(out) => [out]
  }

  /** The outcome of forwarding once the gates have passed, given the back end's answers. */
  function ForwardResult(env: Env, svc: Services, answer: Outbound -> BackendResponse, verb: Verb,
                         req: ProxyRequest, body: Json): Response
  {
    if "path" !in Keys(req.args) then ServerError("KeyError: 'path'")
    else
      var path := Get(req.args, "path").value;
      match Prepare(verb, env.apiBaseUrl, path, Pop(req.args, "path"), body, svc.dumps, svc.sign)
      case Failure(e) => ServerError("signing failed")
      case Success(out) => Relay(answer(out))
  }

  /** The common tail of every verb: sign, send once, relay. */
  method Forward(env: Env, svc: Services, backend: Backend, verb: Verb, req: ProxyRequest, body: Json)
    returns (resp: Response)
    requires KeysDistinct(req.args)
    modifies backend
    ensures resp == ForwardResult(env, svc, backend.answer, verb, req, body)
    ensures backend.sent == old(backend.sent) + Outgoing(env, svc, verb, req, body)
  {
    var path := Get(req.args, "path");
    var params := GetParams(req.args);
    if params.Failure? {
      return ServerError("KeyError: 'path'");
    }
    ghost var out := Prepare(verb, env.apiBaseUrl, path.value, params.value, body, svc.dumps, svc.sign);
    var sent := Sigv4Request(verb, env.apiBaseUrl, path.value, params.value, [], body, svc.dumps, svc.sign, backend);
    if sent.Failure? {
      return ServerError("signing failed");
    }
    assert out.Success? && Overlay(out.value.headers, []) == out.value.headers;
    assert out.value.(headers := out.value.headers) == out.value;
    resp := Relay(sent.value);
  }

  /** The extra gate of the verbs that change state: any response from it becomes 401. */
  function AdminGate(env: Env, svc: Services, req: ProxyRequest): Option<Response>
  {
    match Authenticate(env, "admin", req.cookie, svc.decodeAgain)
    case Allow => None
    case Deny(_) => Some(Abort(401))
    case Crash(reason) => Some(ServerError(reason))
  }

  /** `get()`. */
  method HandleGet(env: Env, svc: Services, backend: Backend, req: ProxyRequest) returns (resp: Response)
    requires KeysDistinct(req.args)
    modifies backend
    ensures resp == ForwardResult(env, svc, backend.answer, GET, req, JNull)
    ensures backend.sent == old(backend.sent) + Outgoing(env, svc, GET, req, JNull)
  {
    resp := Forward(env, svc, backend, GET, req, JNull);
  }

  /** `post()`, `put()` and `patch()`, which differ only in the verb. */
  method HandleWrite(env: Env, svc: Services, backend: Backend, verb: Verb, req: ProxyRequest) returns (resp: Response)
    requires KeysDistinct(req.args)
    requires verb in {POST, PUT, PATCH}
    modifies backend
    ensures AdminGate(env, svc, req).Some? ==>
              resp == AdminGate(env, svc, req).value && backend.sent == old(backend.sent)
    ensures AdminGate(env, svc, req).None? ==>
              resp == ForwardResult(env, svc, backend.answer, verb, req, req.json)
              && backend.sent == old(backend.sent) + Outgoing(env, svc, verb, req, req.json)
  {
    var denied := AdminGate(env, svc, req);
    if denied.Some? {
      return denied.value;
    }
    resp := Forward(env, svc, backend, verb, req, req.json);
  }

  /** `delete()`. */
  method HandleDelete(env: Env, svc: Services, backend: Backend, req: ProxyRequest) returns (resp: Response)
    requires KeysDistinct(req.args)
    modifies backend
    ensures AdminGate(env, svc, req).Some? ==>
              resp == AdminGate(env, svc, req).value && backend.sent == old(backend.sent)
    ensures AdminGate(env, svc, req).None? ==>
              resp == ForwardResult(env, svc, backend.answer, DELETE, req, DeleteBody(req))
              && backend.sent == old(backend.sent) + Outgoing(env, svc, DELETE, req, DeleteBody(req))
  {
    var denied := AdminGate(env, svc, req);
    if denied.Some? {
      return denied.value;
    }
    var body := JNull;
    if "Content-Type" in Keys(req.headers) && Get(req.headers, "ContentType") == Some("application/json") {
      body := req.json;
    }
    resp := Forward(env, svc, backend, DELETE, req, body);
  }

  /**
   * Who may reach the backend through a verb: everybody off Lambda; otherwise the holder
   * of a token that verifies and is in group "user" (any verifying token when
   * authorization is disabled), and for a verb that changes state a token that verifies
   * again, the second time in group "admin" (again any when authorization is disabled).
   * The two verifications are separate calls: `decodeAgain` is the second one.
   */
  predicate Authorized(env: Env, verb: Verb, cookie: Option<string>,
                       decode: string -> Decoded, decodeAgain: string -> Decoded)
  {
    RunningLocal(env)
    || (HasToken(cookie) && decode(cookie.value).Verified?
        && (DisableAuth(env) || InGroups(decode(cookie.value).claims, "user"))
        && (Mutating(verb) ==>
              decodeAgain(cookie.value).Verified?
              && (DisableAuth(env) || InGroups(decodeAgain(cookie.value).claims, "admin"))))
  }

  /**
   * `Authorized` is exactly the decorator's "user" gate followed, for a verb that changes
   * state, by the "admin" gate with the second verification. When the second verification
   * answers as the first did, the "admin" gate cannot raise once the "user" gate allowed.
   */
  lemma AuthorizedIffGatesAllow(env: Env, verb: Verb, cookie: Option<string>,
                                decode: string -> Decoded, decodeAgain: string -> Decoded)
    ensures Authorized(env, verb, cookie, decode, decodeAgain)
            <==> Authenticate(env, "user", cookie, decode) == Allow
                 && (Mutating(verb) ==> Authenticate(env, "admin", cookie, decodeAgain) == Allow)
    ensures Authenticate(env, "user", cookie, decode) == Allow
            && (cookie.Some? ==> decodeAgain(cookie.value) == decode(cookie.value))
            ==> !Authenticate(env, "admin", cookie, decodeAgain).Crash?
  {
    var u := Authenticate(env, "user", cookie, decode);
    var a := Authenticate(env, "admin", cookie, decodeAgain);
    if !RunningLocal(env) && HasToken(cookie) && !DisableAuth(env) {
      if decode(cookie.value).Verified? {
        assert u == Allow <==> InGroups(decode(cookie.value).claims, "user");
      }
      if decodeAgain(cookie.value).Verified? {
        assert a == Allow <==> InGroups(decodeAgain(cookie.value).claims, "admin");
      }
    }
  }

  /**
   * A request to the proxy route: the "user" gate of the decorator (any refusal is 401),
   * then the verb, whose own "admin" gate verifies the token a second time. A request
   * reaches the back end only when `Authorized` holds, and then exactly once.
   */
  method Handle(env: Env, svc: Services, backend: Backend, verb: Verb, req: ProxyRequest) returns (resp: Response)
    requires KeysDistinct(req.args)
    modifies backend
    ensures backend.sent == old(backend.sent)
              + (if Authorized(env, verb, req.cookie, svc.decode, svc.decodeAgain)
                 then Outgoing(env, svc, verb, req, BodyFor(verb, req)) else [])
    ensures Authorized(env, verb, req.cookie, svc.decode, svc.decodeAgain) ==>
              resp == ForwardResult(env, svc, backend.answer, verb, req, BodyFor(verb, req))
    ensures !Authorized(env, verb, req.cookie, svc.decode, svc.decodeAgain) ==>
              var user := Authenticate(env, "user", req.cookie, svc.decode);
              var admin := Authenticate(env, "admin", req.cookie, svc.decodeAgain);
              if user.Crash? then resp == ServerError(user.reason)
              else if user == Allow && admin.Crash? then resp == ServerError(admin.reason)
              else resp == Abort(401)
    ensures !RunningLocal(env) && !HasToken(req.cookie) ==> resp == Abort(401)
    ensures !RunningLocal(env) && HasToken(req.cookie) && svc.decode(req.cookie.value) in {Expired, BadSignature}
            ==> resp == Abort(401)
  {
    AuthorizedIffGatesAllow(env, verb, req.cookie, svc.decode, svc.decodeAgain);
    var gate := Authenticate(env, "user", req.cookie, svc.decode);
    if gate.Deny? {
      return Abort(401);
    } else if gate.Crash? {
      return ServerError(gate.reason);
    }
    match verb {
      case GET => resp := HandleGet(env, svc, backend, req);
      case DELETE => resp := HandleDelete(env, svc, backend, req);
      case _ => resp := HandleWrite(env, svc, backend, verb, req);
    }
  }

  /** A backend answer reaches the caller with exactly the backend's status, 404 and 500 included. */
  lemma StatusRelayed(env: Env, svc: Services, answer: Outbound -> BackendResponse, verb: Verb,
                                         req: ProxyRequest, body: Json)
    ensures "path" in Keys(req.args) ==>
              var out := Prepare(verb, env.apiBaseUrl, Get(req.args, "path").value, Pop(req.args, "path"),
                                 body, svc.dumps, svc.sign);
              out.Success? && answer(out.value).body.Some? ==>
                ForwardResult(env, svc, answer, verb, req, body) == Reply(answer(out.value).body.value, answer(out.value).status)
  {
  }

  /**
   * DELETE sends body bytes only when the caller sent a `Content-Type` header, a header
   * `ContentType: application/json` and a non-empty JSON body.
   */
  lemma DeleteSendsBodyOnlyUnderHeaderTest(env: Env, svc: Services, req: ProxyRequest, path: string, params: Dict<string>)
    ensures var out := Prepare(DELETE, env.apiBaseUrl, path, params, DeleteBody(req), svc.dumps, svc.sign);
            out.Success? ==>
              (out.value.data.Some?
               <==> "Content-Type" in Keys(req.headers) && Get(req.headers, "ContentType") == Some("application/json")
                    && Truthy(req.json))
  {
  }
}
