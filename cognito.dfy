// Cognito access-token verification: the JWKS key set is fetched and cached
// for an hour, the signing key is the first one whose `kid` equals the
// token header's, and a token counts only when the decoded payload says it
// is an access token. JWT parsing and signature checking are parameters.

module CognitoAuth {
  import opened Common

  /** A JSON value as `jose` decodes it. */
  datatype Json = JNull | JBool(b: bool) | JInt(i: int) | JStr(s: string) | JList(items: seq<Json>)

  /** Python truthiness of a JSON value. */
  predicate JTruthy(v: Json)
  {
    match v
    case JNull => false
    case JBool(b) => b
    case JInt(i) => i != 0
    case JStr(s) => s != ""
    case JList(items) => items != []
  }

  /** A decoded token payload or a user-information dict. */
  type Claims = map<string, Json>

  /** `d.get(k, default)` */
  function GetOr(d: Claims, k: string, default: Json): (r: Json)
    ensures k in d ==> r == d[k]
    ensures k !in d ==> r == default
  {
    if k in d then d[k] else default
  }

  /** One key of the key set; only its `kid` matters here. */
  datatype Jwk = Jwk(kid: Option<string>, material: string)

  /** What `jwt.get_unverified_header` gives: the header's `kid`, or a
      `JWTError` for a malformed token. */
  datatype Header = Header(kid: Option<string>) | MalformedToken

  /** The key set a fetch answers with (its `keys`, `[]` when absent), or a
      `RequestException`. */
  datatype JwksAnswer = Keys(keys: seq<Jwk>) | RequestFailed

  /** The arguments `jwt.decode` is given. */
  datatype DecodeRequest = DecodeRequest(token: string, key: Jwk, algorithms: seq<string>, audience: string, issuer: string)

  /** The outcome of `jwt.decode`: the payload, or any exception. */
  datatype Decoded = Payload(claims: Claims) | Rejected

  /** The JOSE library: header parsing and verified decoding. */
  datatype Jose = Jose(header: string -> Header, decode: DecodeRequest -> Decoded)

  /** Seconds a fetched key set stays fresh. */
  const JwksTtl: real := 3600.0

  /** Whether `_get_jwks` fetches: nothing cached, or the cache is older
      than an hour (exactly an hour still counts as fresh). */
  predicate NeedsRefresh(cache: Option<seq<Jwk>>, cacheTime: Option<real>, now: real)
  {
    cache.None? || cacheTime.None? || now - cacheTime.value > JwksTtl
  }

  /** The first key whose `kid` equals `kid`. */
  function FirstWithKid(keys: seq<Jwk>, kid: string): (r: Option<Jwk>)
    ensures r.Some? <==> exists i :: 0 <= i < |keys| && keys[i].kid == Some(kid)
    ensures r.Some? ==> exists i :: 0 <= i < |keys| && keys[i] == r.value && keys[i].kid == Some(kid)
                                  && forall j :: 0 <= j < i ==> keys[j].kid != Some(kid)
  {
    if keys == [] then None
    else if keys[0].kid == Some(kid) then Some(keys[0])
    else
      var r := FirstWithKid(keys[1..], kid);
      assert forall i :: 0 <= i < |keys[1..]| ==> keys[1..][i] == keys[i + 1];
      r
  }

  /** The payload is one of an access token. */
  predicate IsAccessToken(claims: Claims)
  {
    GetOr(claims, "token_use", JNull) == JStr("access")
  }

  /** The dict `get_user_info_from_token` builds from a payload. */
  function UserInfoOf(payload: Claims): (info: Claims)
    ensures info.Keys == {"username", "sub", "email", "email_verified", "cognito_groups", "token_use", "exp", "iat"}
    ensures info["email_verified"] == GetOr(payload, "email_verified", JBool(false))
    ensures info["cognito_groups"] == GetOr(payload, "cognito:groups", JList([]))
    ensures forall k :: k in {"username", "sub", "email", "token_use", "exp", "iat"} ==> info[k] == GetOr(payload, k, JNull)
  {
    map["username" := GetOr(payload, "username", JNull),
        "sub" := GetOr(payload, "sub", JNull),
        "email" := GetOr(payload, "email", JNull),
        "email_verified" := GetOr(payload, "email_verified", JBool(false)),
        "cognito_groups" := GetOr(payload, "cognito:groups", JList([])),
        "token_use" := GetOr(payload, "token_use", JNull),
        "exp" := GetOr(payload, "exp", JNull),
        "iat" := GetOr(payload, "iat", JNull)]
  }

  /** The user information is never empty, so never falsy. */
  lemma UserInfoIsNonEmpty(payload: Claims)
    ensures UserInfoOf(payload) != map[]
  {
    assert "username" in UserInfoOf(payload);
  }

  /** `CognitoJWTVerifier`, with the JWKS cache and its timestamp. */
  class CognitoJwtVerifier {
    const userPoolId: string
    const appClientId: string
    const region: string
    var jwksCache: Option<seq<Jwk>>
    var jwksCacheTime: Option<real>

    constructor(userPoolId: string, appClientId: string, region: string)
      ensures this.userPoolId == userPoolId && this.appClientId == appClientId && this.region == region
      ensures jwksCache == None && jwksCacheTime == None
    {
      this.userPoolId := userPoolId;
      this.appClientId := appClientId;
      this.region := region;
      jwksCache := None;
      jwksCacheTime := None;
    }

    /** The pool's token issuer. */
    function Issuer(): string
    {
      "https://cognito-idp." + region + ".amazonaws.com/" + userPoolId
    }

    /** `jwks_url` */
    function JwksUrl(): string
    {
      Issuer() + "/.well-known/jwks.json"
    }

    /** `_get_jwks` at time `now`; `fetch` answers a GET of a URL. A failed
        fetch raises and changes nothing. */
    method GetJwks(now: real, fetch: string -> JwksAnswer) returns (r: Result<seq<Jwk>>)
      modifies this
      ensures !NeedsRefresh(old(jwksCache), old(jwksCacheTime), now) ==>
                r == Ok(old(jwksCache).value) && jwksCache == old(jwksCache) && jwksCacheTime == old(jwksCacheTime)
      ensures NeedsRefresh(old(jwksCache), old(jwksCacheTime), now) && fetch(JwksUrl()).Keys? ==>
                r == Ok(fetch(JwksUrl()).keys) && jwksCache == Some(fetch(JwksUrl()).keys) && jwksCacheTime == Some(now)
      ensures NeedsRefresh(old(jwksCache), old(jwksCacheTime), now) && fetch(JwksUrl()).RequestFailed? ==>
                r == Raised(OtherException("Exception")) && jwksCache == old(jwksCache) && jwksCacheTime == old(jwksCacheTime)
    {
      if NeedsRefresh(jwksCache, jwksCacheTime, now) {
        var answer := fetch(JwksUrl());
        if answer.RequestFailed? {
          return Raised(OtherException("Exception"));
        }
        jwksCache := Some(answer.keys);
        jwksCacheTime := Some(now);
      }
      r := Ok(jwksCache.value);
    }

    /** `_get_signing_key`: `None` for a malformed token or a header without
        a (truthy) `kid`, without fetching; otherwise the first key with that
        `kid`. A failed fetch propagates. */
    method GetSigningKey(token: string, jose: Jose, now: real, fetch: string -> JwksAnswer) returns (r: Result<Option<Jwk>>)
      modifies this
      ensures jose.header(token).MalformedToken? || jose.header(token).kid.None? || jose.header(token).kid == Some("") ==>
                r == Ok(None) && jwksCache == old(jwksCache) && jwksCacheTime == old(jwksCacheTime)
      ensures r.Ok? && r.value.Some? ==>
                jose.header(token).Header? && jose.header(token).kid.Some? && jwksCache.Some?
                && r.value == FirstWithKid(jwksCache.value, jose.header(token).kid.value)
      ensures r.Raised? ==> NeedsRefresh(old(jwksCache), old(jwksCacheTime), now) && fetch(JwksUrl()).RequestFailed?
                            && jwksCache == old(jwksCache) && jwksCacheTime == old(jwksCacheTime)
      ensures jose.header(token).Header? && jose.header(token).kid.Some? && jose.header(token).kid != Some("")
              && !(NeedsRefresh(old(jwksCache), old(jwksCacheTime), now) && fetch(JwksUrl()).RequestFailed?) ==>
                jwksCache.Some? && r == Ok(FirstWithKid(jwksCache.value, jose.header(token).kid.value))
      ensures jose.header(token).Header? && jose.header(token).kid.Some? && jose.header(token).kid != Some("")
              && NeedsRefresh(old(jwksCache), old(jwksCacheTime), now) && fetch(JwksUrl()).RequestFailed? ==>
                r.Raised?
    {
      var header := jose.header(token);
      if header.MalformedToken? || header.kid.None? || header.kid.value == "" {
        return Ok(None);
      }
      var jwks := GetJwks(now, fetch);
      if jwks.Raised? {
        return Raised(jwks.exc);
      }
      r := Ok(FirstWithKid(jwks.value, header.kid.value));
    }

    /** `verify_token`: never raises; a payload only for a token whose
        signing key is found, which the library decodes against this pool's
        issuer and client id, and whose `token_use` is "access". */
    method VerifyToken(token: string, jose: Jose, now: real, fetch: string -> JwksAnswer) returns (r: Option<Claims>)
      modifies this
      ensures r.Some? ==>
                jose.header(token).Header? && jose.header(token).kid.Some? && jwksCache.Some?
                && var key := FirstWithKid(jwksCache.value, jose.header(token).kid.value);
                   key.Some?
                   && jose.decode(DecodeRequest(token, key.value, ["RS256"], appClientId, Issuer())) == Payload(r.value)
                   && IsAccessToken(r.value)
      ensures jose.header(token).MalformedToken? || jose.header(token).kid.None? || jose.header(token).kid == Some("") ==>
                r == None
      ensures jose.header(token).Header? && jose.header(token).kid.Some? && jose.header(token).kid != Some("")
              && !(NeedsRefresh(old(jwksCache), old(jwksCacheTime), now) && fetch(JwksUrl()).RequestFailed?) ==>
                jwksCache.Some?
                && var key := FirstWithKid(jwksCache.value, jose.header(token).kid.value);
                   r == (if key.None? then None
                         else match jose.decode(DecodeRequest(token, key.value, ["RS256"], appClientId, Issuer()))
                              case Rejected => None
                              case Payload(p) => if IsAccessToken(p) then Some(p) else None)
      ensures jose.header(token).Header? && jose.header(token).kid.Some? && jose.header(token).kid != Some("")
              && NeedsRefresh(old(jwksCache), old(jwksCacheTime), now) && fetch(JwksUrl()).RequestFailed? ==>
                r == None
    {
      var signingKey := GetSigningKey(token, jose, now, fetch);
      if signingKey.Raised? || signingKey.value.None? {
        return None;
      }
      var decoded := jose.decode(DecodeRequest(token, signingKey.value.value, ["RS256"], appClientId, Issuer()));
      if decoded.Rejected? {
        return None;
      }
      if GetOr(decoded.claims, "token_use", JNull) != JStr("access") {
        return None;
      }
      r := Some(decoded.claims);
    }

    /** `get_user_info_from_token` */
    method GetUserInfoFromToken(token: string, jose: Jose, now: real, fetch: string -> JwksAnswer) returns (r: Option<Claims>)
      modifies this
      ensures r.Some? ==>
                jose.header(token).Header? && jose.header(token).kid.Some? && jwksCache.Some?
                && var key := FirstWithKid(jwksCache.value, jose.header(token).kid.value);
                   key.Some?
                   && var d := jose.decode(DecodeRequest(token, key.value, ["RS256"], appClientId, Issuer()));
                      d.Payload? && IsAccessToken(d.claims) && r.value == UserInfoOf(d.claims)
      ensures jose.header(token).MalformedToken? || jose.header(token).kid.None? || jose.header(token).kid == Some("") ==>
                r == None
      ensures jose.header(token).Header? && jose.header(token).kid.Some? && jose.header(token).kid != Some("")
              && NeedsRefresh(old(jwksCache), old(jwksCacheTime), now) && fetch(JwksUrl()).RequestFailed? ==>
                r == None
      ensures jose.header(token).Header? && jose.header(token).kid.Some? && jose.header(token).kid != Some("")
              && !(NeedsRefresh(old(jwksCache), old(jwksCacheTime), now) && fetch(JwksUrl()).RequestFailed?) ==>
                jwksCache.Some?
                && var key := FirstWithKid(jwksCache.value, jose.header(token).kid.value);
                   r == (if key.None? then None
                         else match jose.decode(DecodeRequest(token, key.value, ["RS256"], appClientId, Issuer()))
                              case Rejected => None
                              case Payload(p) => if IsAccessToken(p) && p != map[] then Some(UserInfoOf(p)) else None)
    {
      var payload := VerifyToken(token, jose, now, fetch);
      if payload.None? || payload.value == map[] {
        return None;
      }
      r := Some(UserInfoOf(payload.value));
    }
  }

  /** A fetched key set is refetched exactly when more than an hour has
      passed since the fetch: one read exactly an hour later still reuses it. */
  lemma FreshForAnHour(keys: seq<Jwk>, fetchedAt: real, now: real)
    ensures NeedsRefresh(Some(keys), Some(fetchedAt), now) <==> now > fetchedAt + JwksTtl
    ensures !NeedsRefresh(Some(keys), Some(fetchedAt), fetchedAt + 3600.0)
    ensures NeedsRefresh(None, Some(fetchedAt), now) && NeedsRefresh(Some(keys), None, now)
  {
  }

  /** A token whose payload is anything but an access token is refused even
      with a valid signature. */
  lemma IdTokenIsRefused(p: Claims)
    requires "token_use" in p && p["token_use"] == JStr("id")
    ensures !IsAccessToken(p)
  {
    assert JStr("id") != JStr("access") by {
      assert "id"[0] != "access"[0];
    }
  }
}
