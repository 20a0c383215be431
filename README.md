# ParallelCluster UI API handler, modelled in Dafny

This project models the core of `api/PclusterApiHandler.py`, the Flask back end of the
AWS ParallelCluster UI. It covers:

- the authentication gate: `running_local`, `disable_auth`, `authenticate`, the
  `authenticated` decorator, `auth_redirect` and `logout`;
- the OAuth 2.0 authorization-code login: `login`, with the authorization request of
  section 4.1.1 of RFC 6749 and the access token request of section 4.1.3;
- the signed proxy: `_get_params`, the five verbs of the `PclusterApiHandler` resource, and
  everything `sigv4_request` assembles around the AWS Signature Version 4 signer. That is
  the endpoint split, the query string, the URL, the body, the `content-type` header and
  the loop that applies the caller's headers;
- the local end points that build remote commands or check arguments: the `runuser` line
  of `ssm_command`, `submit_job`, `scontrol_job` and `ec2_action`;
- the user directory pieces: the group effect of `set_user_role`, the attribute
  conversion of `_augment_user`, and `get_identity`.

Modules, one file each:

| file | module | what it holds |
|---|---|---|
| wrappers.dfy | Wrappers | `Option` and `Result` |
| strings.dfy | Strings | Python's `split`, `split(c, 1)`, `join`, `replace(p, "")` and `strip`, with their round trips |
| dicts.dfy | Dicts | a Python `dict` as an insertion-ordered list of entries: lookup, assignment, `pop` and the last-wins dict comprehension |
| json.dfy | JsonData | JSON values and Python truthiness |
| http.dfy | Http | responses, cookies and HTTP verbs |
| config.dfy | Config | the environment the module reads at import time |
| query.dfy | Query | the unescaped `k=v&k=v` query strings the handler builds, and reading them back |
| auth.dfy | Auth | `authenticate`, `authenticated`, `auth_redirect`, `logout` |
| login.dfy | Login | `login` |
| sigv4.dfy | SigV4 | `sigv4_request` |
| proxy.dfy | Proxy | `_get_params` and the proxy resource |
| commands.dfy | Commands | `ssm_command`'s command line, `submit_job`, `scontrol_job`, `ec2_action` |
| users.dfy | Users | `set_user_role`, `_augment_user`, `get_identity` |

Everything the handler reaches outside itself is an input. That covers the process
environment (`Config.Env`), the request (arguments, headers, the `accessToken` cookie and
the JSON body) and JWT verification (a function from a token to `Auth.Decoded`). It also
covers `json.dumps`, Python's `str()`, the SigV4 signer with its credentials, SSM, and
Cognito's `list_users`. The API Gateway back end is a `SigV4.Backend` object: its answers
are an input, and it records every request sent to it, so the contracts can say which
requests go out. An exception that escapes a handler is modelled
as `ServerError`, which Flask turns into a 500 answer.

Python dictionaries are ordered lists of `(key, value)` entries with distinct keys.
Assigning to a key that is present keeps its place, and a new key goes at the end. A dict
comprehension lets the last entry with a given key win. Query arguments and headers are
looked up by exact name.

The model follows the code where it differs from what one would expect. Three points
stand out:

- A request without a token is sent to the login page even for group "guest", because
  the token test comes before the group test (`Auth.NoTokenRedirectsEveryGroup`).
- A decoder that raises `JWSSignatureError` makes `authenticate` answer with the logout
  redirect. Behind the proxy's decorator (`redirect=False`) that becomes 401, like every other
  refusal (`Proxy.Handle`).
- DELETE forwards the body only when a `Content-Type` header is present and a header
  spelled `ContentType` equals `application/json` (`Proxy.DeleteSendsBodyOnlyUnderHeaderTest`).

## Model

| member | source | states |
|---|---|---|
| Auth.Authenticate | api/PclusterApiHandler.py:103-117 | The gate allows exactly when `Permits` holds: always when running locally; otherwise only with a non-empty token that verifies, and then when authorization is disabled, the group is "guest", or the token's `cognito:groups` contain the group. With no token or an expired token it answers the `auth_redirect` response. It answers the `logout()` response exactly when the decoder raises `JWSSignatureError`: a 302 to `/login` that sets `accessToken` to `""` with `expires=0`. It raises exactly when the decoder raises something else, or when the groups claim cannot be made into a set and the group check is reached. It never answers anything else. |
| Auth.LocalIgnoresCredentials | api/PclusterApiHandler.py:49-50 | When `AWS_LAMBDA_FUNCTION_NAME` is unset or empty, the gate allows whatever the cookie and the decoder are. |
| Auth.NoTokenRedirectsEveryGroup | api/PclusterApiHandler.py:107-109 | Off Lambda, a missing or empty token gets the login redirect for every group, "guest" included, and whether or not authorization is disabled. |
| Auth.AuthenticatedRunsHandlerIffPermitted | api/PclusterApiHandler.py:120-131 | The decorated handler runs exactly when the gate permits. When the gate refuses, the gate's own response comes back with `redirect=True` and 401 with `redirect=False`, whatever the handler. When the gate raises, the exception escapes. A gate that does not permit always refuses or raises. |
| Login.AuthorizationUrlIsRequest | api/PclusterApiHandler.py:97-100 | The `auth_redirect` target is `{AUTH_PATH}/login?` followed by `response_type=code`, `client_id` and `redirect_uri={SITE_URL}/login`, in that order. That query reads back to exactly those three parameters when neither value holds `&`. |
| Login.TokenRequestMatchesAuthorization | api/PclusterApiHandler.py:557-567 | The code exchange asks for the `authorization_code` grant with the received code. It sends the same `redirect_uri` and `client_id` the authorization request carried. |
| Login.Login | api/PclusterApiHandler.py:550-576 | Without a non-empty `code` argument the answer is the authorization redirect. With one, the code is exchanged. An answer that is not JSON, or not a JSON object, raises. A missing or falsy `access_token` gives the authorization redirect. A non-empty string token t gives a 302 to `/index.html` setting the session cookie `accessToken` to t. Every redirect is a 302. |
| Login.LoginWithoutCodeIsGateRedirect | api/PclusterApiHandler.py:551-555 | Off Lambda, `/login` without a code and a gated request without a token send the browser to the same place, the hosted login URL. |
| SigV4.SplitHost | api/PclusterApiHandler.py:66 | The four-way split of the endpoint succeeds exactly when it holds at least three dots. The api id, service and region hold no dot, and the endpoint is the four parts joined by dots. |
| SigV4.EndpointOfHttpsHost | api/PclusterApiHandler.py:65 | An `https://` base URL with no other scheme text in it loses exactly its scheme. |
| SigV4.BodyData | api/PclusterApiHandler.py:72 | There are body bytes exactly when the body is truthy, and they are its JSON dump. |
| SigV4.Prepare | api/PclusterApiHandler.py:63-87 | An unset host raises. A host with fewer than three dots once `https://` and `http://` are removed raises. Otherwise the signer is given the verb, the URL, the body bytes, `execute-api` and the host's third label as region. Preparing succeeds exactly when the signer has credentials. The prepared request keeps the verb. Its URL is host, path, `?` and the `&`-joined `k=v` parameters. It has body bytes exactly when the body is truthy, and they are the JSON dump. Its headers are the signer's, plus `content-type: application/json` when there is a body. |
| SigV4.SignedBytesIndependentOfSigner | api/PclusterApiHandler.py:68-74 | The URL and body bytes handed to the signer depend only on the request, not on the signer. |
| SigV4.OverlayGet | api/PclusterApiHandler.py:88-89 | After the header loop, a header the caller passed has the caller's last value for that name. Every other header keeps its signed value. |
| SigV4.ApplyHeaders | api/PclusterApiHandler.py:88-89 | The loop that assigns the caller's headers one at a time ends with the headers `Overlay` describes. |
| SigV4.Backend.Send | api/PclusterApiHandler.py:91 | Sending records the request as the last one that went out, and returns the back end's answer to it. |
| SigV4.Sigv4Request | api/PclusterApiHandler.py:63-91 | A request that cannot be prepared fails with the preparation's error, and nothing is sent. Otherwise exactly one request is sent: the prepared request with the caller's headers laid over the signed ones. The back end's answer to it comes back unchanged. |
| Query.QueryRoundTrip | api/PclusterApiHandler.py:68 | The query string built from parameters whose names hold no `&` or `=` and whose values hold no `&` reads back to the same parameters in the same order. |
| Query.ParsePiecesOfPieces | api/PclusterApiHandler.py:293 | Splitting each `k=v` piece at its first `=` gives back the key and value, when the key holds no `=`. |
| Proxy.GetParams | api/PclusterApiHandler.py:585-588 | It fails exactly when there is no `path` argument. Otherwise it gives every other argument, unchanged and in order, without `path`. |
| Proxy.ForwardedParamsExample | api/PclusterApiHandler.py:586-587 | `path=/v3/clusters/foo&region=us-east-1` forwards exactly `region=us-east-1`. |
| Proxy.Relay | api/PclusterApiHandler.py:602 | The backend's JSON body and status come back as the answer. A body that is not JSON raises. |
| Proxy.Outgoing | api/PclusterApiHandler.py:601 | Forwarding sends at most one request. That request has the verb, and its URL is `API_BASE_URL`, `path`, `?` and the other arguments. There is none without `path`, without a base URL or without credentials. |
| Proxy.Forward | api/PclusterApiHandler.py:601 | Forwarding sends exactly the requests `Outgoing` names: the signed request to `API_BASE_URL` at `path`, with the other arguments as parameters. It relays the back end's answer. |
| Proxy.HandleGet | api/PclusterApiHandler.py:597-602 | GET forwards without a body. |
| Proxy.HandleWrite | api/PclusterApiHandler.py:604-639 | POST, PUT and PATCH (lines 604-616 and 634-639) answer 401 when the "admin" gate refuses and 500 when it raises, and then send nothing. Otherwise they forward the request's JSON body. |
| Proxy.HandleDelete | api/PclusterApiHandler.py:618-632 | DELETE answers 401 when the "admin" gate refuses and 500 when it raises, and then sends nothing. Otherwise it forwards the body `DeleteBody` picks. |
| Proxy.AuthorizedIffGatesAllow | api/PclusterApiHandler.py:595-637 | `Authorized` holds exactly when the decorator's "user" gate allows and, for a verb that changes state, the "admin" gate allows too. The "admin" gate verifies the token a second time. When that second verification answers as the first did, the "admin" gate cannot raise once the "user" gate allowed. |
| Proxy.Handle | api/PclusterApiHandler.py:594-639 | A request reaches the back end exactly when `Authorized` holds, and then exactly the request `Outgoing` names. `Authorized` means: locally always; otherwise a token that verifies and is in "user" (any verifying token when authorization is disabled). For a verb that changes state, the token must also verify a second time and then be in "admin", again any when authorization is disabled. An authorized request gets the relayed answer. An exception of the "user" gate escapes as a 500, and so does one of the "admin" gate after the "user" gate allowed. Every other request gets 401. A missing token is always 401, and so is one whose decoding reports expiry or raises `JWSSignatureError`. |
| Proxy.StatusRelayed | api/PclusterApiHandler.py:601-602 | Whatever status the backend answers with, 404 and 500 included, reaches the caller with the backend's JSON body. |
| Proxy.DeleteSendsBodyOnlyUnderHeaderTest | api/PclusterApiHandler.py:623-631 | DELETE sends body bytes exactly when a `Content-Type` header is present, the `ContentType` header is `application/json`, and the JSON body is truthy. |
| Commands.SsmCommandLine | api/PclusterApiHandler.py:193 | The line SSM runs starts with `runuser -l` and the user, and ends with the command inside single quotes. Its length is exactly that of the user and command plus the 17 fixed characters. |
| Commands.OptionFields | api/PclusterApiHandler.py:227-230 | Once `wrap` and `command` are popped, the body holds every other field, unchanged, and no duplicate key. |
| Commands.SubmitJob | api/PclusterApiHandler.py:222-235 | It fails exactly when the body is not an object or has no `command`. Otherwise SSM runs `sbatch`, then each remaining field as `--name value` joined by spaces, then ` --wrap "command"` when `wrap` is truthy or ` command` otherwise. It runs as the `user` argument, default `ec2-user`, in the `region` and on the `instance_id` given. |
| Commands.SubmitJobBareCommand | api/PclusterApiHandler.py:230-231 | A body holding only `command` gives `sbatch`, two spaces, and the command. |
| Commands.ParseFormatJobInfo | api/PclusterApiHandler.py:287-294 | Parsing the one-line `key=value ...` output of `scontrol show job -o` gives back the job's fields in order. This holds when keys are distinct and hold no `=`, and neither keys nor values hold white space. |
| Commands.ScontrolJob | api/PclusterApiHandler.py:279-295 | A missing or empty `job_id` is answered with 400. An error from the SSM command is passed on with its body and status. Output that parses is answered with the job's fields. |
| Commands.ScontrolTimeoutLost | api/PclusterApiHandler.py:287-291 | When the SSM command times out, the handler as written raises instead of returning the timeout message. The corrected handler returns it with status 500. |
| Commands.Ec2Action | api/PclusterApiHandler.py:141-158 | A missing `instance_ids` is answered with 400 before the action is looked at. An action other than `stop_instances` or `start_instances` is answered with 400. With `instance_ids` and one of those actions, the matching EC2 call is made. Its ids are the comma-separated pieces of the list, none holding a comma, and joining them gives the list back. The client's region is set exactly when a non-empty `region` is given. |
| Users.CognitoUser.AddToGroup | api/PclusterApiHandler.py:539 | Adding a user to a group makes the group one of the user's groups and changes no other membership. |
| Users.CognitoUser.RemoveFromGroup | api/PclusterApiHandler.py:536 | Removing a user from a group leaves every other membership, and changes nothing when the user was not in it. |
| Users.CognitoUser.SetUserRole | api/PclusterApiHandler.py:535-543 | The add and remove calls for a role leave the memberships `RoleEffect` describes. |
| Users.RoleEffect | api/PclusterApiHandler.py:535-543 | "guest" leaves neither "user" nor "admin", "user" leaves "user" without "admin", and "admin" leaves both. Groups other than these two are untouched, and any other role changes nothing. |
| Users.RoleDecidesAccess | api/PclusterApiHandler.py:116 | With authorization on, a token listing the groups a role leaves passes the gate for "guest", "user" or "admin" exactly when the role ranks at least as high as that group. |
| Users.AttributeMap | api/PclusterApiHandler.py:490 | Attributes convert exactly when each has a string `Name` and a `Value`. The result has distinct names, and each name's value is the last one given for it. |
| Users.AugmentUser | api/PclusterApiHandler.py:484-491 | It fails exactly when the attribute list cannot be converted. Otherwise the user gains `Groups` (or `exception`, with the error text), `Attributes` becomes the name-to-value object, and every other field is unchanged, including whichever of `Groups` and `exception` was not written. |
| Users.GetIdentity | api/PclusterApiHandler.py:460-481 | Locally the fixed identity comes back. A missing token gets 401 "No access token." and an expired one gets 401 "Signature expired.". A `JWSSignatureError` or any other decoding error raises. A verifying token gets a 200 answer exactly when it has no truthy username, or `list_users` finds a user whose attributes convert; otherwise the lookup raises. That answer holds the token's claims, with `attributes` taken from the user found. Its groups are `["user", "admin"]` when authorization is disabled, or the token's own otherwise. When the claims have distinct keys, so does the answer. |
| Dicts.Pop | api/PclusterApiHandler.py:587 | `pop` removes exactly the entry for its key, keeps the others in order, and keeps keys distinct. |
| Dicts.FromPairs | api/PclusterApiHandler.py:294 | A dict comprehension over key-value pairs has distinct keys, and the last pair with a key gives its value. |
| Strings.JoinSplit | api/PclusterApiHandler.py:149 | Joining the pieces of a split with the separator gives back the string. |
| Strings.SplitJoin | api/PclusterApiHandler.py:288 | Splitting a join of pieces that do not hold the separator gives back the pieces. |

## Left out

- JWT verification and the JWKS download of `jwt_decode` are left out. The decoder is an
  input that verifies, reports expiry (`jwt.ExpiredSignatureError`), raises
  `JWSSignatureError`, or raises something else. Which exception the JWT library raises
  for a tampered token is the library's choice; the model follows the `except` clauses
  as written.
  Each call is its own input: the proxy's verbs that change state verify the token twice
  (`Proxy.Services.decodeAgain`), so the two answers may differ. `Auth.Authenticate` and
  `get_identity` verify it once.
- SigV4 cryptography and the credential lookup are inputs, and so are the back end's answers. The model
  fixes what is signed and sent, not the signature's bytes. The 30-second timeout is
  left out.
- Connection failures are left out: `requests.post` in `login` and the request sent by
  `sigv4_request` can raise, which Flask answers with 500. `Login.TokenReply` and
  `SigV4.Backend.answer` always answer.
- The boto3 calls to EC2, SSM and Cognito are left out, and so is the loading of secrets
  at import time. Their answers are inputs.
- SSM polling in `ssm_command` is left out: the one-minute deadline, the sleeps and the
  status loop. Its outcome is an input, either the output or an error body with a status.
- `submit_job`'s final answer is left out. It depends only on that outcome.
- The price estimate, queue status, cancel job, DCV session, custom image, cluster
  configuration, version, `get_aws_config` and `get_instance_types` end points are not
  part of this model. They are boto3 or SSM calls with little logic of their own.
- `create_user`, `delete_user` and `list_users` are not part of this model. They are
  single Cognito calls.
- The user lookup after `set_user_role`'s group calls is left out. The conversion it
  applies is `Users.AugmentUser`.
- JSON numbers are integers. Floating point values are not modelled.
- Header dictionaries are looked up by exact name. Flask's and botocore's header maps
  ignore case, so a `Content-Type` sent in another case is not modelled.
- Query arguments that repeat a key are modelled by their first value only.
- Flask's rules for when `request.json` parses the body, by content type, are left out.
  The body is an input.
- `str()` and `json.dumps` are opaque functions.
- A token that is not a string cannot occur: the cookie is a string.
- A username claim that is not a string is passed to `list_users` through `str()`.
- Login.Login: a truthy `access_token` that is not a string is modelled as a server error.
  The model does not follow what Flask's `set_cookie` would do with it.
- Commands.Ec2Action: the answer after the EC2 call is left out: `{"message": "success"}`,
  once the call returns. The EC2 call's own errors are left out too, because the call is
  boto3.
- Users.AttributeMap: attribute names are strings and the attribute list is a list, as
  Cognito returns them. Python would also accept a number, boolean or null name, and an
  `Attributes` value of `{}` or `""`; the model fails on these.
- Users.AugmentUser: fails on the same attribute shapes as `Users.AttributeMap`.
- Users.GetIdentity: raises on the same attribute shapes as `Users.AttributeMap`, where
  Python would answer 200.
- Commands.ScontrolJob: output with a piece that has no `=` is a server error, as in the
  source. The contract names only the outcomes of output that parses.

## Findings

| source | as written | input that shows it | evidently intended | confidence | as-written member | corrected member |
|---|---|---|---|---|---|---|
| api/PclusterApiHandler.py:287-291 | `.strip()` is applied to the result of `ssm_command` before `isinstance(job_data, tuple)` is tested. An error tuple therefore raises AttributeError, and the `isinstance` branch can never be taken. | an SSM command that times out, so `ssm_command` returns `({"message": "Timed out waiting for command to complete."}, 500)` for `job_id=42` | the error body and status are returned to the caller | not executed | Commands.ScontrolJobAsWritten | Commands.ScontrolJob |
