/**
 * A discrepancy in app.py between what the token endpoint mints and what the
 * userinfo endpoint reads, exhibited on a concrete exchange.
 */
module OidcProxyFindings {
  import opened Wrappers
  import opened Json
  import Jose
  import opened OidcProxy
  import OidcProxyProperties

  /**
   * A token exchange after which userinfo, given the ID token just minted,
   * reports a null `sub` although the upstream token names the user, and so
   * does not return the upstream token's attributes.
   */
  predicate LosesSubject(cfg: Config, form: TokenForm, upstream: UpstreamRequest -> UpstreamReply, now: int) {
    && TokenEndpoint(cfg, form, upstream, now).Success?
    && var claims := upstream(UpstreamRequestFor(cfg, form)).accessToken.claims;
    && var info := UserInfo(cfg, TokenEndpoint(cfg, form, upstream, now).value.idToken, now);
    && Get(claims, "user_name") != Null
    && info.Success?
    && info.value["sub"] == Null
    && info != Success(UserInfoBody(UpstreamAttributes(claims)))
  }

  /** The round trip a client expects fails for userinfo as written: some exchange loses the subject. */
  lemma RoundTripFails()
    ensures exists cfg, form, upstream, now :: LosesSubject(cfg, form, upstream, now)
  {
    var cfg := Config("https://proxy", "https://upstream", "client", "client-secret", "secret");
    var form := TokenForm("alice", "pw", None, None);
    var claims := map["user_name" := Str("alice")];
    var upstream := (q: UpstreamRequest) => UpstreamReply(200, "", Jose.Encode(claims, "upstream-key", "HS256"));
    var now := 0;
    var a := UpstreamAttributes(claims);
    assert a.userName == Str("alice");
    var r := TokenEndpoint(cfg, form, upstream, now);
    assert r.Success?;
    OidcProxyProperties.TokenThenUserInfo(cfg, form, upstream, now, now);
    var info := UserInfo(cfg, r.value.idToken, now);
    assert info == Success(UserInfoBody(a.(userName := Null, fullname := Null)));
    assert info.value["sub"] == Null;
    assert UserInfoBody(a)["sub"] == Str("alice");
    assert LosesSubject(cfg, form, upstream, now);
  }
}
