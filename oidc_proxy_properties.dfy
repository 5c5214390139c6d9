/**
 * Properties that relate the handlers of app.py to each other and to the
 * token codec: what a client that follows the intended flow (token exchange,
 * then userinfo with the minted ID token) observes.
 */
module OidcProxyProperties {
  import opened Wrappers
  import opened Json
  import Jose
  import opened OidcProxy

  /** The scope field is accepted but never used: the token exchange does not depend on it. */
  lemma TokenIgnoresScope(cfg: Config, form: TokenForm, scope: Option<string>, upstream: UpstreamRequest -> UpstreamReply, now: int)
    ensures UpstreamRequestFor(cfg, form.(scope := scope)) == UpstreamRequestFor(cfg, form)
    ensures TokenEndpoint(cfg, form.(scope := scope), upstream, now) == TokenEndpoint(cfg, form, upstream, now)
  {
  }

  /**
   * The minted ID token verifies with the local secret for exactly the hour
   * after it was minted, and then gives back the minted claims.
   */
  lemma IdTokenVerifiesForOneHour(cfg: Config, form: TokenForm, upstream: UpstreamRequest -> UpstreamReply, now: int, t: int)
    requires TokenEndpoint(cfg, form, upstream, now).Success?
    ensures var reply := upstream(UpstreamRequestFor(cfg, form));
      var idToken := TokenEndpoint(cfg, form, upstream, now).value.idToken;
      Jose.Decode(idToken, cfg.secretKey, [IdTokenAlg], t) ==
        if t <= now + IdTokenLifetime
        then Success(IdTokenClaims(cfg, UpstreamAttributes(reply.accessToken.claims), now))
        else Failure(Jose.Expired)
  {
  }

  /** Read under the upstream's claim names, a minted claim set has lost the user name and the full name. */
  lemma UpstreamNamesOfIdToken(cfg: Config, a: UserAttributes, now: int)
    ensures UpstreamAttributes(IdTokenClaims(cfg, a, now)) == a.(userName := Null, fullname := Null)
  {
  }

  /**
   * Userinfo as written, given the ID token a token exchange just minted:
   * within the hour it returns the user's attributes except that `sub` and
   * `name` are null; after the hour it fails with 401.
   */
  lemma TokenThenUserInfo(cfg: Config, form: TokenForm, upstream: UpstreamRequest -> UpstreamReply, now: int, t: int)
    requires TokenEndpoint(cfg, form, upstream, now).Success?
    ensures var reply := upstream(UpstreamRequestFor(cfg, form));
      var a := UpstreamAttributes(reply.accessToken.claims);
      UserInfo(cfg, TokenEndpoint(cfg, form, upstream, now).value.idToken, t) ==
        if t <= now + IdTokenLifetime
        then Success(UserInfoBody(a.(userName := Null, fullname := Null)))
        else Failure(InvalidToken)
  {
  }

  /**
   * Corrected userinfo, given the ID token a token exchange just minted:
   * within the hour it returns exactly the attributes read from the upstream
   * token; after the hour it fails with 401.
   */
  lemma TokenThenCorrectedUserInfo(cfg: Config, form: TokenForm, upstream: UpstreamRequest -> UpstreamReply, now: int, t: int)
    requires TokenEndpoint(cfg, form, upstream, now).Success?
    ensures var reply := upstream(UpstreamRequestFor(cfg, form));
      var a := UpstreamAttributes(reply.accessToken.claims);
      CorrectedUserInfo(cfg, TokenEndpoint(cfg, form, upstream, now).value.idToken, t) ==
        if t <= now + IdTokenLifetime then Success(UserInfoBody(a)) else Failure(InvalidToken)
  {
  }

  /** The upstream access token is refused by userinfo unless the upstream signed it with the proxy's own secret. */
  lemma UpstreamTokenRejected(cfg: Config, claims: Object, upstreamKey: string, alg: string, t: int)
    requires upstreamKey != cfg.secretKey
    ensures UserInfo(cfg, Jose.Encode(claims, upstreamKey, alg), t) == Failure(InvalidToken)
  {
  }

  /** The path an advertised endpoint names on the proxy, if it is a URL under the proxy domain. */
  function PathUnder(cfg: Config, url: string): (p: Option<string>)
    ensures p.Some? ==> url == cfg.proxyDomain + p.value
  {
    if cfg.proxyDomain <= url then Some(url[|cfg.proxyDomain|..]) else None
  }

  /**
   * Discovery advertises the token, userinfo and key-set paths the
   * application serves; the authorization endpoint names a path nothing
   * serves.
   */
  lemma DiscoveryMatchesRoutes(cfg: Config)
    ensures PathUnder(cfg, Discovery(cfg)["token_endpoint"].s) == Some(TokenPath)
    ensures PathUnder(cfg, Discovery(cfg)["userinfo_endpoint"].s) == Some(UserInfoPath)
    ensures PathUnder(cfg, Discovery(cfg)["jwks_uri"].s) == Some(JwksPath)
    ensures PathUnder(cfg, Discovery(cfg)["authorization_endpoint"].s).Some?
    ensures PathUnder(cfg, Discovery(cfg)["authorization_endpoint"].s).value !in ServedPaths
  {
  }
}
