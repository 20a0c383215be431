/**
 * The environment the handler reads, as one immutable record: the module-level settings
 * read once at import, and the two flags `running_local` and `disable_auth` look up.
 */
module Config {
  import opened Wrappers

  datatype Env = Env(
    lambdaFunctionName: Option<string>, // AWS_LAMBDA_FUNCTION_NAME
    enableAuth: Option<string>,         // ENABLE_AUTH
    userPoolId: Option<string>,         // USER_POOL_ID
    authPath: Option<string>,           // AUTH_PATH
    apiBaseUrl: Option<string>,         // API_BASE_URL
    clientId: Option<string>,           // CLIENT_ID
    clientSecret: Option<string>,       // CLIENT_SECRET
    siteUrlVar: Option<string>)         // SITE_URL

  /** Outside Lambda, which the handler treats as local development. */
  predicate RunningLocal(env: Env)
  {
    env.lambdaFunctionName.None? || env.lambdaFunctionName.value == ""
  }

  /** Authorization is switched off only by the exact text "false". */
  predicate DisableAuth(env: Env)
  {
    env.enableAuth == Some("false")
  }

  /** `SITE_URL`, defaulting to `API_BASE_URL`. */
  function SiteUrl(env: Env): Option<string>
  {
    if env.siteUrlVar.Some? then env.siteUrlVar else env.apiBaseUrl
  }

  /** A query argument that is there and not empty: what `if not x` rejects. */
  predicate Present(o: Option<string>)
  {
    o.Some? && o.value != ""
  }

  /** How an f-string renders an optional setting: an unset one prints as "None". */
  function Fmt(o: Option<string>): string
  {
    match o
    case None => "None"
    case Some(s) => s
  }
}
