# OpenID Connect proxy over an OAuth2 password-grant server — a Dafny model

The application (`app.py`) is an OpenID Connect shim in front of an OAuth2
server that offers only the resource-owner password grant (section 4.3 of
RFC 6749). It serves four endpoints:

- **token** — forwards the caller's username, password and grant type, with the
  configured client id and secret, to `{TARGET_DOMAIN}/oauth/token`. A non-200
  upstream status is passed through with the upstream body as detail. Otherwise
  the upstream `access_token` is decoded without checking its signature, six
  user attributes are read from it, and a new ID token is signed with HS256 and
  the local secret. Its claims are `iss`, `sub`, `aud`, `exp`, `iat` (section 4.1
  of RFC 7519, section 2 of OpenID Connect Core 1.0), `name` and four copied
  attributes. The response holds the upstream token unchanged, the ID token,
  `token_type` "Bearer" and a fixed `expires_in` of 3600.
- **userinfo** — verifies the bearer token with the local secret (HS256 only,
  unexpired) and returns six fields read from its claims, or 401 "Invalid token".
- **discovery** — the OpenID Connect Discovery 1.0 document (section 3): the
  issuer and four endpoint URLs, each the proxy domain followed by a fixed path.
- **certs** — the JWK Set (section 5 of RFC 7517), always empty.

Every handler is a total function of the configuration, its inputs and the
clock, so the model is functional: datatypes, functions and lemmas.

Files and modules:

- `wrappers.dfy` (`Wrappers`): `Option` and `Result`.
- `json.dfy` (`Json`): JSON values and `dict.get`. Python's `None` and JSON
  `null` are one value, `Null`. `d.get(k)` yields `None` both for a missing key
  and for a key bound to `null`, and `None` is written out as `null`.
- `jose.dfy` (`Jose`): `jwt.encode`/`jwt.decode` as an abstract codec. A token
  is the `alg` header, the claim set and a signature. The signature is an
  unforgeable tag `Mac(alg, key, claims)` standing for the HMAC. Verified
  decoding checks the algorithm list, the signature and then `exp`. Unverified
  decoding (`verify_signature: False`) skips the signature and algorithm
  checks. Of the claim checks the library still applies in both forms, only
  `exp` is modelled; "## Left out" lists the others.
- `oidc_proxy.dfy` (`OidcProxy`): the configuration record, the four handlers
  and the corrected userinfo (see Findings). The upstream server is a function
  parameter from the request sent to the reply received. The clock is an
  integer parameter `now`, in seconds.
- `oidc_proxy_properties.dfy` (`OidcProxyProperties`): lemmas relating the
  handlers to each other and to the codec.
- `oidc_proxy_findings.dfy` (`OidcProxyFindings`): a concrete exchange on which
  the token → userinfo round trip fails.

## Model

| member | source | states |
|---|---|---|
| `Json.GetOr` | app.py:55 | `d.get(key, default)`: the bound value when the key is present, the default otherwise |
| `Json.Get` | app.py:52-57 | `d.get(key)`: the bound value when the key is present, null otherwise |
| `Jose.CheckExpiry` | app.py:51 | the library's time check accepts exactly the claim sets with no `exp` or an integer `exp` not before `now`, and then passes the claims through unchanged |
| `Jose.Encode` | app.py:62-77 | the minted token carries the given claims and HS256 header and is signed with the given key |
| `Jose.Decode` | app.py:91 | verified decoding succeeds exactly when the token is a JWS with an allowed algorithm, signed with the key over its own claims, and unexpired; it then yields the token's claims |
| `Jose.DecodeUnverified` | app.py:51 | decoding without verification succeeds exactly when the token is a JWS whose `exp` has not passed; it then yields the token's claims |
| `Jose.DecodeEncode` | app.py:91 | decoding with the signing key returns exactly the encoded claims while they are unexpired, and fails after that |
| `Jose.DecodeRejectsOtherKey` | app.py:91 | a token signed with any other key never verifies |
| `Jose.DecodeRejectsTampering` | app.py:91 | claims swapped in under a valid signature never verify |
| `Jose.VerifiedIsUnverified` | app.py:51 | every token that verifies is also accepted by the unverified decode, with the same claims |
| `OidcProxy.GrantType` | app.py:27 | the grant type is the caller's when given, otherwise "password" |
| `OidcProxy.UpstreamRequestFor` | app.py:31-40 | the upstream request goes to `TARGET_DOMAIN/oauth/token` with exactly the five form fields: configured client id and secret, and the caller's grant type, username and password unchanged |
| `OidcProxy.UpstreamAttributes` | app.py:52-57 | each of the six attributes is the claim of the upstream name (`user_name`, `fullname`, `user_id`, `authorities`, `hospital_code`, `hospital_name`) when present; otherwise null, and the empty list for `authorities` |
| `OidcProxy.IdTokenClaims` | app.py:62-74 | the minted claim set has exactly the ten claim names, including every claim OpenID Connect requires; `iss` is the proxy domain, `aud` the client id, `iat` is `now` and `exp` one hour later; it is unexpired exactly up to `now + 3600`; read under the ID-token names it gives back the six attributes |
| `OidcProxy.TokenEndpoint` | app.py:42-84 | a non-200 upstream status fails with exactly that status and body, and only then; an undecodable upstream token fails with 401 "Invalid token"; on success the upstream token is returned unchanged, `token_type` is "Bearer", `expires_in` is 3600, and the ID token is HS256, signed with `SECRET_KEY`, over the claims minted from the upstream token's attributes |
| `OidcProxy.UserInfoBody` | app.py:99-106 | the userinfo response has exactly the six fields and carries the attributes under the names `sub`, `name`, `user_id`, `authorities`, `hospital_code`, `hospital_name` |
| `OidcProxy.UserInfo` | app.py:89-108 | userinfo succeeds exactly when the bearer token verifies with `SECRET_KEY` and HS256 and is unexpired, and otherwise fails with 401 "Invalid token"; the response has six fields, read from the claims `user_name`, `fullname`, `user_id`, `authorities` (default empty list), `hospital_code`, `hospital_name` |
| `OidcProxy.CorrectedUserInfo` | app.py:89-108 | the same verification and failure; the six fields carry the token's attributes read under the names the token endpoint mints them with |
| `OidcProxy.Discovery` | app.py:112-119 | the document has exactly the five fields; the issuer is the proxy domain; each endpoint is exactly the proxy domain followed by `/protocol/openid-connect/` and `auth`, `token`, `userinfo` or `certs` respectively |
| `OidcProxy.Jwks` | app.py:123-126 | the key set document holds only `keys`, and it is the empty list |
| `OidcProxyProperties.TokenIgnoresScope` | app.py:28-39 | the `scope` field is never forwarded: neither the upstream request nor the token response depends on it |
| `OidcProxyProperties.IdTokenVerifiesForOneHour` | app.py:62-77 | the minted ID token verifies with `SECRET_KEY`, and yields the minted claims, exactly while `t <= now + 3600`; after that it fails as expired |
| `OidcProxyProperties.UpstreamNamesOfIdToken` | app.py:92-97 | read under the upstream claim names, a minted claim set keeps `user_id`, `authorities`, `hospital_code` and `hospital_name` but has lost the user name and full name |
| `OidcProxyProperties.TokenThenUserInfo` | app.py:92-106 | userinfo given a freshly minted ID token returns the upstream attributes with `sub` and `name` null within the hour, and 401 after it |
| `OidcProxyProperties.TokenThenCorrectedUserInfo` | app.py:64-73 | corrected userinfo given a freshly minted ID token returns exactly the upstream token's attributes within the hour, and 401 after it |
| `OidcProxyProperties.UpstreamTokenRejected` | app.py:91 | the upstream access token presented to userinfo fails with 401 unless it was signed with the proxy's own secret |
| `OidcProxyProperties.DiscoveryMatchesRoutes` | app.py:113-119 | the advertised token, userinfo and JWKS URLs name the paths the application serves; the advertised authorization endpoint names a path no route serves |
| `OidcProxyFindings.RoundTripFails` | app.py:92-93 | there is a successful exchange whose upstream token names the user, after which userinfo on the minted ID token returns `sub` null and not the upstream attributes |

## Left out

- HTTP transport and framework glue: FastAPI routing, form parsing and the
  `HTTPBearer` header check (a request without a bearer token is refused by the
  framework before userinfo runs). Their results are the handlers' inputs.
- The network call `requests.post` and form encoding: the upstream server is a
  function parameter from the request to its reply. A 200 reply whose body is
  not JSON or has no `access_token` raises an exception the source does not
  handle; the model's reply always carries a token.
- Cryptography and encoding inside python-jose: HMAC-SHA256, base64url and JSON
  serialisation. The signature is an unforgeable tag over algorithm, key and claims.
- Jose.Decode: of python-jose's registered-claim checks only `exp` is modelled.
  `aud`, `iss`, `sub`, `jti`, `nbf`, `iat` and `at_hash` are left out.
  The library's audience check raises "Invalid audience" whenever a token
  carries `aud` and the caller passes no expected audience. Userinfo passes
  none (app.py:91), and every minted token carries `aud` (app.py:66). So under
  the library userinfo answers 401 for every minted token, which hides the
  Findings row below. Its `sub` check also refuses a `sub` that is not a
  string, such as the null minted when the upstream token has no `user_name`.
  This model verifies such tokens. (This reading of library code is not
  executed.)
- Jose.DecodeUnverified: with `verify_signature` off the library still applies
  its claim checks. It refuses an upstream token that carries `aud` (none is
  passed at app.py:51), a non-string `sub`, or a malformed `iat`, `nbf` or
  `jti`; the token endpoint then answers 401. The model checks only `exp`, so
  it accepts such upstream tokens.
- Jose.CheckExpiry: any `exp` that is not a JSON number is a decode failure
  (401). The library converts `exp` with `int()`. That accepts numeric strings
  and booleans. A non-numeric string raises ValueError, which the library
  reports as a claims error (401, as modelled). A null, array or object `exp`
  raises TypeError. That is no JWT error, so it escapes the handler as a 500.
- OidcProxy.TokenEndpoint: the success path assumes the call at app.py:51
  works. That call uses the signature of another JWT library. python-jose's
  `jwt.decode` declares `key` as a required parameter, and app.py:51 passes
  none. Under python-jose the call raises TypeError, which `except JWTError`
  (app.py:58) does not catch. Every 200 upstream reply would then end in a
  500. The model follows the evident intent: read the payload without
  verifying it. (This reading of library code is not executed.)
- The clock: one reading `now`, in whole seconds, serves for `exp` and `iat`.
  The source calls `datetime.utcnow()` twice, so `iat` can be a second later
  than `exp - 3600`.
- Configuration loading (`load_dotenv`, `os.getenv`): the five settings are an
  immutable record of strings. An unset variable, which `os.getenv` returns as
  `None`, is not modelled.
- The `print` of an upstream error (app.py:43), and exceptions other than the
  library's JWT errors, such as network failures or a failing `jwt.encode`.
- JSON numbers are integers; floating-point values are not modelled.

## Findings

| source | as written | input that shows it | evidently intended | confidence | as-written member | corrected member |
|---|---|---|---|---|---|---|
| app.py:92-93 | userinfo reads the claims `user_name` and `fullname`, which a minted ID token never carries: the token endpoint writes them as `sub` and `name` (app.py:65, app.py:69) | an upstream token with `user_name` "alice" and a successful exchange: userinfo on the minted ID token returns `sub` null and `name` null | read `sub` and `name`, so that userinfo returns the upstream user name and full name with the other four attributes | high; not executed (under python-jose the audience check and the call at app.py:51 fail first: see "## Left out") | `OidcProxy.UserInfo`, `OidcProxyFindings.RoundTripFails` | `OidcProxy.CorrectedUserInfo`, `OidcProxyProperties.TokenThenCorrectedUserInfo` |
