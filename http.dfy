/** What a handler hands back to Flask, and the verbs of the proxy route. */
module Http {
  import opened Wrappers
  import opened JsonData

  /** A `Set-Cookie`; `expires` absent means a session cookie. */
  datatype Cookie = Cookie(name: string, value: string, expires: Option<int>)

  datatype Response =
    /** `redirect(location, code)`, optionally with a cookie set on it. */
    | Redirect(location: string, code: int, setCookie: Option<Cookie>)
    /** `abort(status)`. */
    | Abort(status: int)
    /** A `(body, status)` pair returned by a handler. */
    | Reply(body: Json, status: int)
    /** An exception that escapes the handler: Flask answers 500. */
    | ServerError(reason: string)

  datatype Verb = GET | POST | PUT | PATCH | DELETE

  /** The verbs that change backend state. */
  predicate Mutating(v: Verb)
  {
    v != GET
  }
}
