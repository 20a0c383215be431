/**
 * `sigv4_request`: everything it assembles around the AWS Signature Version 4 signer.
 * The signer (credentials and cryptography), `json.dumps` and the HTTP transport are
 * passed in as functions; the signer answers None when no credentials can be found.
 */
module SigV4 {
  import opened Wrappers
  import opened Strings
  import opened Dicts
  import opened Query
  import opened JsonData
  import opened Http

  /** `{api_id}.{service}.{region}.{domain}`. */
  datatype HostParts = HostParts(apiId: string, service: string, region: string, domain: string)

  datatype SignError =
    | NoHost                 // the base URL is unset: None has no `replace`
    | MalformedHost          // fewer than four labels: the four-way unpacking fails
    | CredentialsUnavailable // botocore found no credentials to sign with

  /** The request is always signed for API Gateway, whatever the host's second label says. */
  const Service := "execute-api"

  /** What is handed to the signer. */
  datatype SigningInput = SigningInput(verb: Verb, url: string, data: Option<string>, service: string, region: string)

  /** The request that goes out. */
  datatype Outbound = Outbound(verb: Verb, url: string, data: Option<string>, headers: Dict<string>)

  /** The backend's answer: its status and its body, None when the body is not JSON. */
  datatype BackendResponse = BackendResponse(status: int, body: Option<Json>)

  /** `host.replace("https://", "").replace("http://", "")`. */
  function Endpoint(host: string): string
  {
    RemoveAll(RemoveAll(host, "https://"), "http://")
  }

  /** An `https://` base URL loses exactly its scheme when nothing else in it looks like a scheme. */
  lemma EndpointOfHttpsHost(h: string)
    requires forall i :: 0 <= i <= |h| ==> !OccursAt(h, "https://", i) && !OccursAt(h, "http://", i)
    ensures Endpoint("https://" + h) == h
  {
    RemoveAllPrefix("https://", h);
    RemoveAllAbsent(h, "https://");
    RemoveAllAbsent(h, "http://");
  }

  lemma CountAfterSplitOnce(s: string, c: char)
    ensures SplitOnce(s, c).None? ==> Count(s, c) == 0
    ensures SplitOnce(s, c).Some? ==> Count(s, c) == Count(SplitOnce(s, c).value.1, c) + 1
  {
    match SplitOnce(s, c)
    case None => CountAbsent(s, c);
    case Some(parts) =>
      CountAppend(parts.0 + [c], parts.1, c);
      CountAppend(parts.0, [c], c);
      CountAbsent(parts.0, c);
  }

  /**
   * `endpoint.split(".", maxsplit=3)` unpacked into four names: it succeeds exactly when the
   * endpoint has at least three dots; the first three labels hold no dot and the domain is
   * everything after the third.
   */
  function SplitHost(endpoint: string): (r: Option<HostParts>)
    ensures r.Some? <==> Count(endpoint, '.') >= 3
    ensures r.Some? ==>
              endpoint == r.value.apiId + "." + r.value.service + "." + r.value.region + "." + r.value.domain
              && '.' !in r.value.apiId && '.' !in r.value.service && '.' !in r.value.region
  {
    CountAfterSplitOnce(endpoint, '.');
    match SplitOnce(endpoint, '.')
    case None => None
    case Some(p1) =>
      CountAfterSplitOnce(p1.1, '.');
      match SplitOnce(p1.1, '.')
      case None => None
      case Some(p2) =>
        CountAfterSplitOnce(p2.1, '.');
        match SplitOnce(p2.1, '.')
        case None => None
        case Some(p3) =>
          JoinLabels(p1.0, p2.0, p3.0, p3.1);
          Some(HostParts(p1.0, p2.0, p3.0, p3.1))
  }

  lemma JoinLabels(a: string, b: string, c: string, d: string)
    ensures a + ['.'] + (b + ['.'] + (c + ['.'] + d)) == a + "." + b + "." + c + "." + d
  {
  }

  /** `f"{host}{path}?{request_parameters}"`: the `?` is there even with no parameters. */
  function Url(host: string, path: string, params: Dict<string>): string
  {
    host + path + "?" + QueryString(params)
  }

  /** `json.dumps(body) if body else None`. */
  function BodyData(body: Json, dumps: Json -> string): (r: Option<string>)
    ensures r.Some? <==> Truthy(body)
    ensures r.Some? ==> r.value == dumps(body)
  {
    if Truthy(body) then Some(dumps(body)) else None
  }

  /**
   * Everything before the caller's headers are applied: split the host, build the URL and
   * the body, sign, and add `content-type` when there is a body.
   */
  function Prepare(verb: Verb, host: Option<string>, path: string, params: Dict<string>, body: Json,
                   dumps: Json -> string, sign: SigningInput -> Option<Dict<string>>): (r: Result<Outbound, SignError>)
    ensures host.None? ==> r == Failure(NoHost)
    ensures host.Some? ==> (r == Failure(MalformedHost) <==> Count(Endpoint(host.value), '.') < 3)
    ensures r.Success? ==>
              && host.Some?
              && r.value.verb == verb
              && r.value.url == host.value + path + "?" + QueryString(params)
              && (r.value.data.Some? <==> Truthy(body))
              && (Truthy(body) ==> r.value.data == Some(dumps(body))
                                   && Get(r.value.headers, "content-type") == Some("application/json"))
    ensures host.Some? && SplitHost(Endpoint(host.value)).Some? ==>
              var si := SigningInput(verb, Url(host.value, path, params), BodyData(body, dumps), Service,
                                     SplitHost(Endpoint(host.value)).value.region);
              && (r.Success? <==> sign(si).Some?)
              && (r.Success? ==>
                    r.value.headers == if Truthy(body) then Put(sign(si).value, "content-type", "application/json")
                                       else sign(si).value)
    ensures host.Some? && SplitHost(Endpoint(host.value)).Some?
            && sign(SigningInput(verb, Url(host.value, path, params), BodyData(body, dumps), Service,
                                 SplitHost(Endpoint(host.value)).value.region)).None?
            ==> r == Failure(CredentialsUnavailable)
    ensures r == Failure(CredentialsUnavailable) ==>
              host.Some? && SplitHost(Endpoint(host.value)).Some?
              && sign(SigningInput(verb, Url(host.value, path, params), BodyData(body, dumps),
                                   Service, SplitHost(Endpoint(host.value)).value.region)).None?
  {
    if host.None? then Failure(NoHost)
    else match SplitHost(Endpoint(host.value))
      case None => Failure(MalformedHost)
      case Some(parts) =>
        var url := Url(host.value, path, params);
        var data := BodyData(body, dumps);
        match sign(SigningInput(verb, url, data, Service, parts.region))
        case None => Failure(CredentialsUnavailable)
        case Some(signed) =>
          var headers := if data.Some? then Put(signed, "content-type", "application/json") else signed;
          Success(Outbound(verb, url, data, headers))
  }

  /**
   * What is signed depends only on the request, not on the signer: two signers (at two
   * different times, say) see the same URL, body bytes, service and region.
   */
  lemma SignedBytesIndependentOfSigner(
    verb: Verb, host: string, path: string, params: Dict<string>, body: Json, dumps: Json -> string,
    s1: SigningInput -> Option<Dict<string>>, s2: SigningInput -> Option<Dict<string>>)
    requires Prepare(verb, Some(host), path, params, body, dumps, s1).Success?
    requires Prepare(verb, Some(host), path, params, body, dumps, s2).Success?
    ensures Prepare(verb, Some(host), path, params, body, dumps, s1).value.url
            == Prepare(verb, Some(host), path, params, body, dumps, s2).value.url
            == host + path + "?" + QueryString(params)
    ensures Prepare(verb, Some(host), path, params, body, dumps, s1).value.data
            == Prepare(verb, Some(host), path, params, body, dumps, s2).value.data
  {
  }

  /** The headers after `for k, val in headers.items(): boto_request.headers[k] = val`. */
  function Overlay(base: Dict<string>, extra: Dict<string>): Dict<string>
  {
    if extra == [] then base
    else Put(Overlay(base, extra[..|extra| - 1]), extra[|extra| - 1].0, extra[|extra| - 1].1)
  }

  /** A caller's header replaces a signed header of the same name; every other header stays. */
  lemma {:induction false} OverlayGet(base: Dict<string>, extra: Dict<string>, k: string)
    ensures Get(Overlay(base, extra), k) == if k in Keys(extra) then LastValue(extra, k) else Get(base, k)
  {
    if extra != [] {
      var init := extra[..|extra| - 1];
      OverlayGet(base, init, k);
      assert Keys(extra) == Keys(init) + {extra[|extra| - 1].0} by {
        forall x | x in Keys(extra) ensures x in Keys(init) + {extra[|extra| - 1].0} {
          var j :| 0 <= j < |extra| && extra[j].0 == x;
          if j < |extra| - 1 { assert init[j].0 == x; }
        }
        forall x | x in Keys(init) ensures x in Keys(extra) {
          var j :| 0 <= j < |init| && init[j].0 == x;
          assert extra[j].0 == x;
        }
      }
      if k != extra[|extra| - 1].0 && k in Keys(init) {
        LastValueSome(init, k);
      }
    }
  }

  lemma {:induction false} LastValueSome(ps: Dict<string>, k: string)
    requires k in Keys(ps)
    ensures LastValue(ps, k).Some?
  {
    var j :| 0 <= j < |ps| && ps[j].0 == k;
    if ps[|ps| - 1].0 != k {
      assert ps[..|ps| - 1][j].0 == k;
      LastValueSome(ps[..|ps| - 1], k);
    }
  }

  /** Applies the caller's headers one by one, as the source's loop does. */
  method ApplyHeaders(base: Dict<string>, extra: Dict<string>) returns (h: Dict<string>)
    ensures h == Overlay(base, extra)
  {
    h := base;
    for i := 0 to |extra|
      invariant h == Overlay(base, extra[..i])
    {
      assert extra[..i + 1][..i] == extra[..i];
      h := Put(h, extra[i].0, extra[i].1);
    }
    assert extra[..|extra|] == extra;
  }

  /**
   * The API Gateway back end as the handler reaches it: `answer` is what it replies to a
   * request, and `sent` records every request that has gone out, in order.
   */
  class Backend {
    const answer: Outbound -> BackendResponse
    ghost var sent: seq<Outbound>

    constructor (answer: Outbound -> BackendResponse)
      ensures this.answer == answer && sent == []
    {
      this.answer := answer;
      sent := [];
    }

    /** `req_call(boto_request.url, data=body_data, headers=boto_request.headers, timeout=30)`. */
    method Send(out: Outbound) returns (b: BackendResponse)
      modifies this
      ensures sent == old(sent) + [out]
      ensures b == answer(out)
    {
      sent := sent + [out];
      b := answer(out);
    }
  }

  /**
   * `sigv4_request(method, host, path, params, headers, body)`: nothing goes out when the
   * request cannot be prepared; otherwise exactly the prepared request, with the caller's
   * headers laid over the signed ones, goes out once and its answer comes back.
   */
  method Sigv4Request(verb: Verb, host: Option<string>, path: string, params: Dict<string>,
                      headers: Dict<string>, body: Json, dumps: Json -> string,
                      sign: SigningInput -> Option<Dict<string>>, backend: Backend)
    returns (r: Result<BackendResponse, SignError>)
    modifies backend
    ensures Prepare(verb, host, path, params, body, dumps, sign).Failure? ==>
              r == Failure(Prepare(verb, host, path, params, body, dumps, sign).error)
              && backend.sent == old(backend.sent)
    ensures Prepare(verb, host, path, params, body, dumps, sign).Success? ==>
              var out := Prepare(verb, host, path, params, body, dumps, sign).value;
              var final := out.(headers := Overlay(out.headers, headers));
              backend.sent == old(backend.sent) + [final] && r == Success(backend.answer(final))
  {
    var prepared := Prepare(verb, host, path, params, body, dumps, sign);
    if prepared.Failure? {
      return Failure(prepared.error);
    }
    var out := prepared.value;
    var finalHeaders := ApplyHeaders(out.headers, headers);
    var answer := backend.Send(out.(headers := finalHeaders));
    r := Success(answer);
  }
}
