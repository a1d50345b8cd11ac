// GitHub App authentication: the App's JWT claims and the in-memory cache
// of installation access tokens. Times are whole seconds of UTC, each
// marked naive or aware as Python's `datetime` is; signing with RS256 and
// loading the PEM key are oracles.

module GitHubAuth {
  import opened Common
  import opened Hashing

  /** A token is served from the cache only while it has more than five
      minutes left. */
  const ExpiryMargin: int := 300

  /** The clock-drift allowance: the JWT claims to be issued a minute ago. */
  const ClockDrift: int := 60

  const DefaultJwtLifetime: int := 600

  /** The JWT payload: `iat`, `exp` and `iss` (sections 4.1.6, 4.1.4 and
      4.1.1 of RFC 7519). */
  datatype Claims = Claims(iat: int, exp: int, iss: int)

  /** A `datetime` as seconds of UTC; `aware` says whether it carries a
      UTC offset (`tzinfo`). */
  datatype Moment = Moment(seconds: int, aware: bool)

  const MixedComparison: string := "can't compare offset-naive and offset-aware datetimes"

  /** `a > b` on datetimes: a naive and an aware one cannot be compared. */
  function Later(a: Moment, b: Moment): (r: Result<bool>)
    ensures r.Err? <==> a.aware != b.aware
    ensures r.Err? ==> r.error == TypeError(MixedComparison)
    ensures r.Ok? ==> (r.value <==> a.seconds > b.seconds)
  {
    if a.aware != b.aware then Err(TypeError(MixedComparison)) else Ok(a.seconds > b.seconds)
  }

  /** The expiry the GitHub client caches: `datetime.fromisoformat` of the
      response's `expires_at` with `Z` replaced by `+00:00`, an aware
      datetime. */
  function ClientExpiry(seconds: int): (m: Moment)
    ensures m.aware && m.seconds == seconds
  {
    Moment(seconds, true)
  }

  /** One cache entry: the token and the moment it expires. */
  datatype CachedToken = CachedToken(token: string, expiresAt: Moment)

  /** `_load_private_key`: the file's bytes re-encoded as PKCS#8 PEM; a
      missing file or a key that does not parse is a GitHubAuthError. */
  function LoadPrivateKey(file: Option<seq<byte>>, toPkcs8: seq<byte> -> Option<seq<byte>>): (r: Result<seq<byte>>)
    ensures r.Ok? <==> file.Some? && toPkcs8(file.value).Some?
    ensures r.Ok? ==> r.value == toPkcs8(file.value).value
    ensures r.Err? ==> r.error.GitHubAuthError?
  {
    match file
    case None => Err(GitHubAuthError("Failed to load private key: file not found"))
    case Some(bytes) =>
      match toPkcs8(bytes)
      case None => Err(GitHubAuthError("Failed to load private key: invalid key"))
      case Some(pem) => Ok(pem)
  }

  /** The claims `create_jwt` signs at time `now`. */
  function JwtClaims(appId: int, now: int, expirationSeconds: int): Claims {
    Claims(now - ClockDrift, now + expirationSeconds, appId)
  }

  /** The token is already valid when it is made (issued a minute in the
      past), stays valid for the requested lifetime from now, and names the
      App as issuer; the default lifetime is GitHub's ten-minute maximum. */
  lemma ClaimsWindow(appId: int, now: int, expirationSeconds: int)
    ensures JwtClaims(appId, now, expirationSeconds).iat < now
    ensures JwtClaims(appId, now, expirationSeconds).exp - now == expirationSeconds
    ensures JwtClaims(appId, now, expirationSeconds).exp - JwtClaims(appId, now, expirationSeconds).iat
      == expirationSeconds + ClockDrift
    ensures expirationSeconds > 0 ==>
      JwtClaims(appId, now, expirationSeconds).iat < now < JwtClaims(appId, now, expirationSeconds).exp
    ensures JwtClaims(appId, now, DefaultJwtLifetime).exp - now == 600
    ensures JwtClaims(appId, now, expirationSeconds).iss == appId
  {
  }

  /** Two JWTs made at different moments carry different claims. */
  lemma ClaimsDifferOverTime(appId: int, t1: int, t2: int, expirationSeconds: int)
    requires t1 != t2
    ensures JwtClaims(appId, t1, expirationSeconds) != JwtClaims(appId, t2, expirationSeconds)
  {
  }

  /** `get_installation_token` as written on the cache `tokens` at time
      `now`: the cached expiry is compared with the naive
      `datetime.utcnow() + timedelta(minutes=5)`. */
  function TokenForAsWritten(tokens: map<int, CachedToken>, installationId: int, cached: bool, now: int): (r: Result<Option<string>>)
    ensures r.Err? <==> cached && installationId in tokens && tokens[installationId].expiresAt.aware
  {
    if !cached || installationId !in tokens then Ok(None)
    else
      match Later(tokens[installationId].expiresAt, Moment(now + ExpiryMargin, false))
      case Err(e) => Err(e)
      case Ok(valid) => Ok(if valid then Some(tokens[installationId].token) else None)
  }

  /** `get_installation_token` comparing instants, as meant: the cached
      token is served while it has more than five minutes left, whether its
      expiry is naive or aware. */
  function TokenFor(tokens: map<int, CachedToken>, installationId: int, cached: bool, now: int): (r: Option<string>)
    ensures !cached ==> r == None
    ensures r.Some? <==> cached && installationId in tokens && tokens[installationId].expiresAt.seconds > now + ExpiryMargin
    ensures r.Some? ==> r.value == tokens[installationId].token
    ensures !(cached && installationId in tokens && tokens[installationId].expiresAt.aware) ==>
      TokenForAsWritten(tokens, installationId, cached, now) == Ok(r)
  {
    if !cached then None
    else if installationId in tokens && tokens[installationId].expiresAt.seconds > now + ExpiryMargin then
      Some(tokens[installationId].token)
    else None
  }

  /** As written, every cache hit on a token the GitHub client cached
      raises TypeError, so no cached token is ever served; compared as
      instants, it is served until five minutes before it expires. */
  lemma ClientTokenHitRaisesAsWritten(tokens: map<int, CachedToken>, installationId: int, token: string,
                                      expiresAt: int, now: int)
    ensures var after := tokens[installationId := CachedToken(token, ClientExpiry(expiresAt))];
      && TokenForAsWritten(after, installationId, true, now) == Err(TypeError(MixedComparison))
      && TokenFor(after, installationId, true, now) == if expiresAt > now + ExpiryMargin then Some(token) else None
  {
  }

  /** A freshly cached token is served until five minutes before it
      expires, and not after. */
  lemma CachedTokenServed(tokens: map<int, CachedToken>, installationId: int, token: string, expiresAt: Moment, now: int)
    ensures var after := tokens[installationId := CachedToken(token, expiresAt)];
      TokenFor(after, installationId, true, now) == if expiresAt.seconds > now + ExpiryMargin then Some(token) else None
  {
  }

  /** An already expired token is never served: a token cached one hour in
      the past reads back as None. */
  lemma ExpiredTokenNotServed(tokens: map<int, CachedToken>, installationId: int, token: string, aware: bool, now: int)
    ensures TokenFor(tokens[installationId := CachedToken(token, Moment(now - 3600, aware))], installationId, true, now) == None
  {
  }

  /** Caching a token replaces the previous one for that installation and
      leaves every other installation's answer as it was. */
  lemma CachingIsPerInstallation(tokens: map<int, CachedToken>, installationId: int, first: CachedToken,
                                 second: CachedToken, other: int, cached: bool, now: int)
    requires other != installationId
    ensures tokens[installationId := first][installationId := second] == tokens[installationId := second]
    ensures TokenFor(tokens[installationId := second], other, cached, now) == TokenFor(tokens, other, cached, now)
  {
  }

  /** After invalidation nothing is served for the installation, whatever
      was cached, and other installations are not affected. */
  lemma InvalidatedNotServed(tokens: map<int, CachedToken>, installationId: int, other: int, cached: bool, now: int)
    requires other != installationId
    ensures TokenFor(tokens - {installationId}, installationId, cached, now) == None
    ensures TokenFor(tokens - {installationId}, other, cached, now) == TokenFor(tokens, other, cached, now)
  {
  }

  /** `GitHubAppAuth`: the App's identity and its token cache. */
  class GitHubAppAuth {
    const appId: int
    const privateKey: seq<byte>
    var installationTokens: map<int, CachedToken>

    /** The App starts with an empty token cache; the key is the result of
        `LoadPrivateKey`. */
    constructor (appId: int, privateKey: seq<byte>)
      ensures this.appId == appId && this.privateKey == privateKey
      ensures installationTokens == map[]
    {
      this.appId := appId;
      this.privateKey := privateKey;
      installationTokens := map[];
    }

    /** `create_jwt`: the claims for `now`, signed with the App's key; a
        signing failure is a GitHubAuthError. */
    method CreateJwt(now: int, expirationSeconds: int, sign: (Claims, seq<byte>) -> Option<string>) returns (r: Result<string>)
      ensures r.Ok? <==> sign(JwtClaims(appId, now, expirationSeconds), privateKey).Some?
      ensures r.Ok? ==> r.value == sign(JwtClaims(appId, now, expirationSeconds), privateKey).value
      ensures r.Err? ==> r.error.GitHubAuthError?
    {
      var payload := Claims(now - 60, now + expirationSeconds, appId);
      var token := sign(payload, privateKey);
      if token.None? {
        return Err(GitHubAuthError("Failed to create JWT"));
      }
      r := Ok(token.value);
    }

    /** `get_installation_token` as written. */
    method GetInstallationTokenAsWritten(installationId: int, cached: bool, now: int) returns (r: Result<Option<string>>)
      ensures r == TokenForAsWritten(installationTokens, installationId, cached, now)
    {
      if !cached {
        return Ok(None);
      }
      if installationId in installationTokens {
        var entry := installationTokens[installationId];
        var later := Later(entry.expiresAt, Moment(now + 300, false));
        if later.Err? {
          return Err(later.error);
        }
        if later.value {
          return Ok(Some(entry.token));
        }
      }
      r := Ok(None);
    }

    /** `get_installation_token` comparing instants. */
    method GetInstallationToken(installationId: int, cached: bool, now: int) returns (r: Option<string>)
      ensures r == TokenFor(installationTokens, installationId, cached, now)
    {
      if !cached {
        return None;
      }
      if installationId in installationTokens {
        var entry := installationTokens[installationId];
        if entry.expiresAt.seconds > now + 300 {
          return Some(entry.token);
        }
      }
      r := None;
    }

    method CacheInstallationToken(installationId: int, token: string, expiresAt: Moment)
      modifies this
      ensures installationTokens == old(installationTokens)[installationId := CachedToken(token, expiresAt)]
    {
      installationTokens := installationTokens[installationId := CachedToken(token, expiresAt)];
    }

    method InvalidateInstallationToken(installationId: int)
      modifies this
      ensures installationTokens == old(installationTokens) - {installationId}
    {
      if installationId in installationTokens {
        installationTokens := installationTokens - {installationId};
      }
    }
  }
}
