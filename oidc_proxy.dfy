/**
 * The OpenID Connect shim of app.py: four request handlers over an immutable
 * configuration. The token handler forwards a password grant (section 4.3 of
 * RFC 6749) to the upstream server, reads the upstream access token's claims
 * without verifying them, and mints a locally signed ID token (section 2 of
 * OpenID Connect Core 1.0); the userinfo handler verifies a bearer token with
 * the local secret and projects its claims; discovery and the key set are
 * fixed documents.
 *
 * The upstream server is a parameter (a function from the request sent to the
 * reply received), and so is the clock reading `now`, in whole seconds.
 */
module OidcProxy {
  import opened Wrappers
  import opened Json
  import Jose

  /** The five settings read from the environment at start-up. */
  datatype Config = Config(
    proxyDomain: string,
    targetDomain: string,
    clientId: string,
    clientSecret: string,
    secretKey: string)

  /** An HTTPException raised by a handler. */
  datatype HttpError = HttpError(status: int, detail: string)

  const InvalidToken := HttpError(401, "Invalid token")

  /** The algorithm the proxy signs ID tokens with and the only one userinfo accepts. */
  const IdTokenAlg := "HS256"

  /** `timedelta(hours=1)`, the ID token's lifetime, in seconds. */
  const IdTokenLifetime := 3600

  /** The `expires_in` every successful token response reports. */
  const ExpiresIn := 3600

  /** The paths the application serves. */
  const TokenPath := "/protocol/openid-connect/token"
  const UserInfoPath := "/protocol/openid-connect/userinfo"
  const DiscoveryPath := "/.well-known/openid-configuration"
  const JwksPath := "/protocol/openid-connect/certs"
  const ServedPaths := {TokenPath, UserInfoPath, DiscoveryPath, JwksPath}

  // ---------------------------------------------------------------------
  // Token exchange

  /** The form of a token request; an optional field left out is None. */
  datatype TokenForm = TokenForm(
    username: string,
    password: string,
    grantType: Option<string>,
    scope: Option<string>)

  /** The form-encoded POST sent to the upstream token endpoint. */
  datatype UpstreamRequest = UpstreamRequest(url: string, form: map<string, string>)

  /**
   * The upstream's reply: its status, its raw body text and the
   * `access_token` field of its JSON body.
   */
  datatype UpstreamReply = UpstreamReply(status: int, text: string, accessToken: Jose.Token)

  /** The JSON body of a successful token response. */
  datatype TokenResponse = TokenResponse(
    accessToken: Jose.Token,
    idToken: Jose.Token,
    tokenType: string,
    expiresIn: int)

  /** The user attributes the proxy copies from token to token and into userinfo. */
  datatype UserAttributes = UserAttributes(
    userName: Value,
    fullname: Value,
    userId: Value,
    authorities: Value,
    hospitalCode: Value,
    hospitalName: Value)

  /** The form fields forwarded upstream. */
  const UpstreamFormFields := {"client_id", "client_secret", "grant_type", "username", "password"}

  /** The claims of a minted ID token. */
  const IdTokenClaimNames := {
    "iss", "sub", "aud", "exp", "iat",
    "name", "user_id", "authorities", "hospital_code", "hospital_name"}

  /** The claims section 2 of OpenID Connect Core 1.0 makes mandatory in an ID token. */
  const RequiredIdTokenClaims := {"iss", "sub", "aud", "exp", "iat"}

  /** The fields of a userinfo response. */
  const UserInfoFields := {"sub", "name", "user_id", "authorities", "hospital_code", "hospital_name"}

  /** The grant type forwarded upstream: the form's, or "password" when the form has none. */
  function GrantType(form: TokenForm): (g: string)
    ensures form.grantType.None? ==> g == "password"
    ensures form.grantType.Some? ==> g == form.grantType.value
  {
    form.grantType.GetOr("password")
  }

  /**
   * The request forwarded upstream: the configured client credentials and
   * the caller's grant type, username and password, unchanged. The scope is
   * not forwarded.
   */
  function UpstreamRequestFor(cfg: Config, form: TokenForm): (q: UpstreamRequest)
    ensures q.url == cfg.targetDomain + "/oauth/token"
    ensures q.form.Keys == UpstreamFormFields
    ensures q.form["client_id"] == cfg.clientId && q.form["client_secret"] == cfg.clientSecret
    ensures q.form["grant_type"] == GrantType(form)
    ensures q.form["username"] == form.username && q.form["password"] == form.password
  {
    UpstreamRequest(
      cfg.targetDomain + "/oauth/token",
      map[
        "client_id" := cfg.clientId,
        "client_secret" := cfg.clientSecret,
        "grant_type" := GrantType(form),
        "username" := form.username,
        "password" := form.password])
  }

  /**
   * The attributes read from a claim set under the upstream's claim names;
   * a missing claim reads as null, a missing `authorities` as the empty list.
   * Both the token and the userinfo handler read claims this way.
   */
  function UpstreamAttributes(claims: Object): (a: UserAttributes)
    ensures a.userName == (if "user_name" in claims then claims["user_name"] else Null)
    ensures a.fullname == (if "fullname" in claims then claims["fullname"] else Null)
    ensures a.userId == (if "user_id" in claims then claims["user_id"] else Null)
    ensures a.authorities == (if "authorities" in claims then claims["authorities"] else Arr([]))
    ensures a.hospitalCode == (if "hospital_code" in claims then claims["hospital_code"] else Null)
    ensures a.hospitalName == (if "hospital_name" in claims then claims["hospital_name"] else Null)
  {
    UserAttributes(
      Get(claims, "user_name"),
      Get(claims, "fullname"),
      Get(claims, "user_id"),
      GetOr(claims, "authorities", Arr([])),
      Get(claims, "hospital_code"),
      Get(claims, "hospital_name"))
  }

  /** The attributes read from a claim set under the names a minted ID token uses for them. */
  function IdTokenAttributes(claims: Object): UserAttributes {
    UserAttributes(
      Get(claims, "sub"),
      Get(claims, "name"),
      Get(claims, "user_id"),
      GetOr(claims, "authorities", Arr([])),
      Get(claims, "hospital_code"),
      Get(claims, "hospital_name"))
  }

  /**
   * The claims of the ID token minted at time `now`: issued by the proxy, for
   * the configured client, valid for one hour, carrying the user's
   * attributes.
   */
  function IdTokenClaims(cfg: Config, a: UserAttributes, now: int): (c: Object)
    ensures c.Keys == IdTokenClaimNames && RequiredIdTokenClaims <= c.Keys
    ensures c["iss"] == Str(cfg.proxyDomain) && c["aud"] == Str(cfg.clientId)
    ensures c["iat"] == Num(now) && c["exp"].Num? && c["exp"].n == now + IdTokenLifetime
    ensures forall t :: Jose.Unexpired(c, t) <==> t <= now + IdTokenLifetime
    ensures IdTokenAttributes(c) == a
  {
    map[
      "iss" := Str(cfg.proxyDomain),
      "sub" := a.userName,
      "aud" := Str(cfg.clientId),
      "exp" := Num(now + IdTokenLifetime),
      "iat" := Num(now),
      "name" := a.fullname,
      "user_id" := a.userId,
      "authorities" := a.authorities,
      "hospital_code" := a.hospitalCode,
      "hospital_name" := a.hospitalName]
  }

  /**
   * The token endpoint. A non-200 upstream status is passed through with the
   * upstream body as detail; an upstream access token that cannot be decoded
   * is a 401; otherwise the upstream token is returned unchanged beside a
   * freshly minted ID token.
   */
  function TokenEndpoint(
    cfg: Config, form: TokenForm, upstream: UpstreamRequest -> UpstreamReply, now: int
  ): (r: Result<TokenResponse, HttpError>)
    ensures var reply := upstream(UpstreamRequestFor(cfg, form));
      reply.status != 200 <==> r == Failure(HttpError(reply.status, reply.text))
    ensures var reply := upstream(UpstreamRequestFor(cfg, form));
      reply.status == 200 && Jose.DecodeUnverified(reply.accessToken, now).Failure? ==> r == Failure(InvalidToken)
    ensures var reply := upstream(UpstreamRequestFor(cfg, form));
      r.Success? <==> reply.status == 200 && Jose.DecodeUnverified(reply.accessToken, now).Success?
    ensures var reply := upstream(UpstreamRequestFor(cfg, form));
      r.Success? ==>
        && r.value.accessToken == reply.accessToken
        && r.value.tokenType == "Bearer"
        && r.value.expiresIn == ExpiresIn
        && Jose.SignedWith(r.value.idToken, cfg.secretKey)
        && r.value.idToken.alg == IdTokenAlg
        && r.value.idToken.claims == IdTokenClaims(cfg, UpstreamAttributes(reply.accessToken.claims), now)
  {
    var reply := upstream(UpstreamRequestFor(cfg, form));
    if reply.status != 200 then
      Failure(HttpError(reply.status, reply.text))
    else
      match Jose.DecodeUnverified(reply.accessToken, now)
      case Failure(_) => Failure(InvalidToken)
      case Success(claims) =>
        var idClaims := IdTokenClaims(cfg, UpstreamAttributes(claims), now);
        Success(TokenResponse(
          reply.accessToken,
          Jose.Encode(idClaims, cfg.secretKey, IdTokenAlg),
          "Bearer",
          ExpiresIn))
  }

  // ---------------------------------------------------------------------
  // UserInfo

  /** The userinfo response for a user's attributes. */
  function UserInfoBody(a: UserAttributes): (body: Object)
    ensures body.Keys == UserInfoFields
    ensures IdTokenAttributes(body) == a
  {
    map[
      "sub" := a.userName,
      "name" := a.fullname,
      "user_id" := a.userId,
      "authorities" := a.authorities,
      "hospital_code" := a.hospitalCode,
      "hospital_name" := a.hospitalName]
  }

  /**
   * The userinfo endpoint as written: the bearer token is verified with the
   * local secret (HS256 only, unexpired) and its claims are read under the
   * upstream's claim names.
   */
  function UserInfo(cfg: Config, bearer: Jose.Token, now: int): (r: Result<Object, HttpError>)
    ensures r.Success? <==> Jose.Decode(bearer, cfg.secretKey, [IdTokenAlg], now).Success?
    ensures r.Failure? ==> r.error == InvalidToken
    ensures r.Success? ==>
      && r.value.Keys == UserInfoFields
      && r.value["sub"] == Get(bearer.claims, "user_name")
      && r.value["name"] == Get(bearer.claims, "fullname")
      && r.value["user_id"] == Get(bearer.claims, "user_id")
      && r.value["authorities"] == GetOr(bearer.claims, "authorities", Arr([]))
      && r.value["hospital_code"] == Get(bearer.claims, "hospital_code")
      && r.value["hospital_name"] == Get(bearer.claims, "hospital_name")
  {
    match Jose.Decode(bearer, cfg.secretKey, [IdTokenAlg], now)
    case Failure(_) => Failure(InvalidToken)
    case Success(claims) => Success(UserInfoBody(UpstreamAttributes(claims)))
  }

  /**
   * The userinfo endpoint as evidently intended: the same verification, with
   * the claims read under the names the token endpoint mints them with.
   */
  function CorrectedUserInfo(cfg: Config, bearer: Jose.Token, now: int): (r: Result<Object, HttpError>)
    ensures r.Success? <==> Jose.Decode(bearer, cfg.secretKey, [IdTokenAlg], now).Success?
    ensures r.Failure? ==> r.error == InvalidToken
    ensures r.Success? ==> r.value.Keys == UserInfoFields && IdTokenAttributes(r.value) == IdTokenAttributes(bearer.claims)
  {
    match Jose.Decode(bearer, cfg.secretKey, [IdTokenAlg], now)
    case Failure(_) => Failure(InvalidToken)
    case Success(claims) => Success(UserInfoBody(IdTokenAttributes(claims)))
  }

  // ---------------------------------------------------------------------
  // Discovery and key set

  /** The prefix every advertised endpoint shares. */
  const EndpointPrefix := "/protocol/openid-connect/"

  /**
   * The discovery document (section 3 of OpenID Connect Discovery 1.0): the
   * issuer is the proxy domain and every endpoint is the proxy domain
   * followed by a fixed path.
   */
  function Discovery(cfg: Config): (d: Object)
    ensures d.Keys == {"issuer", "authorization_endpoint", "token_endpoint", "userinfo_endpoint", "jwks_uri"}
    ensures d["issuer"] == Str(cfg.proxyDomain)
    ensures forall k :: k in d && k != "issuer" ==>
      d[k].Str? && cfg.proxyDomain + EndpointPrefix <= d[k].s
    ensures d["authorization_endpoint"] == Str(cfg.proxyDomain + EndpointPrefix + "auth")
    ensures d["token_endpoint"] == Str(cfg.proxyDomain + EndpointPrefix + "token")
    ensures d["userinfo_endpoint"] == Str(cfg.proxyDomain + EndpointPrefix + "userinfo")
    ensures d["jwks_uri"] == Str(cfg.proxyDomain + EndpointPrefix + "certs")
  {
    map[
      "issuer" := Str(cfg.proxyDomain),
      "authorization_endpoint" := Str(cfg.proxyDomain + "/protocol/openid-connect/auth"),
      "token_endpoint" := Str(cfg.proxyDomain + "/protocol/openid-connect/token"),
      "userinfo_endpoint" := Str(cfg.proxyDomain + "/protocol/openid-connect/userinfo"),
      "jwks_uri" := Str(cfg.proxyDomain + "/protocol/openid-connect/certs")]
  }

  /** The JWK Set (section 5 of RFC 7517): always empty, since HS256 has no public key. */
  function Jwks(): (j: Object)
    ensures j.Keys == {"keys"} && j["keys"] == Arr([])
  {
    map["keys" := Arr([])]
  }
}
