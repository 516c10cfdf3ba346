/**
 * Cloudflare Access token checking: the configuration gate, the one-slot
 * public-key cache with its 24-hour window, the first-match search of the key
 * list by key id, and the allow/deny decisions of the two Flask decorators and
 * the ASGI middleware.
 *
 * The HTTPS endpoint that publishes the key list is an object that logs every
 * request and answers it from an arbitrary response table. The unverified
 * header parse and the signature/claims check of the JWT library are passed
 * in as function-valued parameters (oracles). Every contract below holds for
 * every choice of responses and oracles.
 */
module CloudflareAccess {
  import opened Results

  // ---------------------------------------------------------------------------
  // Constants
  // ---------------------------------------------------------------------------

  /** Names of the two required environment variables, as reported when missing. */
  const TeamDomainVar: string := "CF_TEAM_DOMAIN"
  const AudTagVar: string := "CF_AUD_TAG"

  /** Freshness window of the key cache, in seconds (24 hours). */
  const CacheDuration: int := 86400

  /** The only signature algorithm the decoder is asked to accept. */
  const Algorithm: string := "RS256"

  /** Messages of the 401 responses. */
  const NoTokenMessage: string := "No Cloudflare Access token provided"
  const InvalidTokenMessage: string := "Invalid Cloudflare Access token"
  const MiddlewareNoTokenMessage: string := "No token"
  const MiddlewareInvalidTokenMessage: string := "Invalid token"

  /** HTTP status of every rejection. */
  const Unauthorized401: int := 401

  // ---------------------------------------------------------------------------
  // Data
  // ---------------------------------------------------------------------------

  /** One record of the published key list; `kid` is absent when the record has no `kid` entry. */
  datatype Jwk = Jwk(kid: Option<string>, material: string)

  /** The unverified JWT header; only its key id is used. */
  datatype Header = Header(kid: Option<string>)

  /** A claim value of the decoded payload, carried without interpretation. */
  datatype ClaimValue = Text(text: string) | Number(number: int) | Other

  /** The decoded payload: claim name to value. */
  type Claims = map<string, ClaimValue>

  /** What the decoder is asked to check: accepted algorithms, expected audience and issuer. */
  datatype DecodeOptions = DecodeOptions(algorithms: seq<string>, audience: string, issuer: string)

  /** What one request for the key list yields: the parsed `keys` list, or any failure (HTTP status, timeout, body). */
  datatype FetchResult = Fetched(keys: seq<Jwk>) | FetchFailed

  /** Every way validation can fail; each is an exception in the original. */
  datatype AuthError =
    | ConfigError(missing: seq<string>)  // ValueError naming the unset variables
    | KeyFetchError                      // the key request failed
    | MalformedToken                     // the header could not be read
    | KidLookupError                     // a key record or the header has no `kid` entry
    | NoMatchingKey                      // 'No matching key found'
    | InvalidToken(reason: string)       // the decoder rejected the token

  // ---------------------------------------------------------------------------
  // Configuration gate
  // ---------------------------------------------------------------------------

  /** Python truthiness of an environment lookup: unset and empty both count as not set. */
  predicate IsSet(setting: Option<string>) {
    setting.Some? && setting.value != ""
  }

  predicate ConfigComplete(teamDomain: Option<string>, audTag: Option<string>) {
    IsSet(teamDomain) && IsSet(audTag)
  }

  /** The names reported as missing, the team domain first. */
  function MissingSettings(teamDomain: Option<string>, audTag: Option<string>): (missing: seq<string>)
    ensures TeamDomainVar in missing <==> !IsSet(teamDomain)
    ensures AudTagVar in missing <==> !IsSet(audTag)
    ensures missing == [] <==> ConfigComplete(teamDomain, audTag)
    ensures !IsSet(teamDomain) ==> missing[0] == TeamDomainVar
    ensures |missing| == (if IsSet(teamDomain) then 0 else 1) + (if IsSet(audTag) then 0 else 1)
    ensures forall k :: 0 <= k < |missing| ==> missing[k] == TeamDomainVar || missing[k] == AudTagVar
  {
    assert TeamDomainVar[3] != AudTagVar[3];
    (if IsSet(teamDomain) then [] else [TeamDomainVar]) + (if IsSet(audTag) then [] else [AudTagVar])
  }

  /** The issuer the decoder must find in the token. */
  function Issuer(teamDomain: string): string {
    "https://" + teamDomain
  }

  /** The address the key list is requested from. */
  function CertsUrl(teamDomain: string): string {
    "https://" + teamDomain + "/cdn-cgi/access/certs"
  }

  function ExpectedOptions(teamDomain: string, audTag: string): DecodeOptions {
    DecodeOptions([Algorithm], audTag, Issuer(teamDomain))
  }

  // ---------------------------------------------------------------------------
  // Key cache policy
  // ---------------------------------------------------------------------------

  /** The cached list is served when it is non-empty and less than a window old. */
  predicate CacheHit(keys: seq<Jwk>, cacheTime: int, now: int) {
    keys != [] && now - cacheTime < CacheDuration
  }

  // ---------------------------------------------------------------------------
  // Key lookup
  // ---------------------------------------------------------------------------

  /**
   * Where the scan of the key list stops: at the first key whose id equals the
   * header's, at the first comparison that needs a missing `kid`, or at the end.
   */
  datatype Lookup = Match(index: nat) | NoKid(index: nat) | NoMatch

  /** The first `n` keys were compared with `kid`, every `kid` was present, and none was equal. */
  ghost predicate NoneMatchBefore(keys: seq<Jwk>, kid: Option<string>, n: nat)
    requires n <= |keys|
  {
    forall j :: 0 <= j < n ==> keys[j].kid.Some? && kid.Some? && keys[j].kid != kid
  }

  /** `r` is where a front-to-back scan of `keys` for `kid` stops. */
  ghost predicate IsFirstLookup(keys: seq<Jwk>, kid: Option<string>, r: Lookup) {
    match r
    case Match(i) => i < |keys| && NoneMatchBefore(keys, kid, i) && kid.Some? && keys[i].kid == kid
    case NoKid(i) => i < |keys| && NoneMatchBefore(keys, kid, i) && (keys[i].kid.None? || kid.None?)
    case NoMatch => NoneMatchBefore(keys, kid, |keys|)
  }

  /** The scan of the `for key in keys` loop, as a function of the list. */
  function FindKey(keys: seq<Jwk>, kid: Option<string>): (r: Lookup)
    ensures IsFirstLookup(keys, kid, r)
  {
    if keys == [] then NoMatch
    else if keys[0].kid.None? || kid.None? then NoKid(0)
    else if keys[0].kid == kid then Match(0)
    else
      match FindKey(keys[1..], kid)
      case Match(i) => Match(i + 1)
      case NoKid(i) => NoKid(i + 1)
      case NoMatch => NoMatch
  }

  /** A scan has only one possible stopping point. */
  lemma LookupUnique(keys: seq<Jwk>, kid: Option<string>, r1: Lookup, r2: Lookup)
    requires IsFirstLookup(keys, kid, r1) && IsFirstLookup(keys, kid, r2)
    ensures r1 == r2
  {
  }

  /**
   * What validation yields once the key list is known: the header is read, the
   * first key with the header's id is looked up, and the decoder is asked,
   * with that key, to check the token.
   */
  function VerifyWithKeys(
    keys: seq<Jwk>, header: Option<Header>, token: string,
    decode: (string, Jwk, DecodeOptions) -> Result<Claims, string>, options: DecodeOptions
  ): Result<Claims, AuthError>
  {
    match header
    case None => Failure(MalformedToken)
    case Some(h) =>
      match FindKey(keys, h.kid)
      case Match(i) =>
        (match decode(token, keys[i], options)
         case Success(claims) => Success(claims)
         case Failure(reason) => Failure(InvalidToken(reason)))
      case NoKid(_) => Failure(KidLookupError)
      case NoMatch => Failure(NoMatchingKey)
  }

  /**
   * Decoded claims are only ever the decoder's output for the first key, in
   * list order, whose id equals the header's; no other key is used.
   */
  lemma VerifiedOnlyByFirstMatchingKey(
    keys: seq<Jwk>, header: Option<Header>, token: string,
    decode: (string, Jwk, DecodeOptions) -> Result<Claims, string>, options: DecodeOptions
  )
    requires VerifyWithKeys(keys, header, token, decode, options).Success?
    ensures header.Some? && header.value.kid.Some?
    ensures exists i :: (0 <= i < |keys| && keys[i].kid == header.value.kid
      && NoneMatchBefore(keys, header.value.kid, i)
      && decode(token, keys[i], options) == Success(VerifyWithKeys(keys, header, token, decode, options).value))
  {
    var i := FindKey(keys, header.value.kid).index;
    assert keys[i].kid == header.value.kid;
  }

  /**
   * "No matching key found" is reported exactly when every key carries an id
   * and none equals the header's.
   */
  lemma NoMatchingKeyExactly(
    keys: seq<Jwk>, h: Header, token: string,
    decode: (string, Jwk, DecodeOptions) -> Result<Claims, string>, options: DecodeOptions
  )
    ensures VerifyWithKeys(keys, Some(h), token, decode, options) == Failure(NoMatchingKey)
      <==> NoneMatchBefore(keys, h.kid, |keys|)
  {
    if NoneMatchBefore(keys, h.kid, |keys|) {
      LookupUnique(keys, h.kid, NoMatch, FindKey(keys, h.kid));
    }
  }

  // ---------------------------------------------------------------------------
  // The validator: configuration flag and key cache
  // ---------------------------------------------------------------------------

  /**
   * The module-level state of the original: the two configuration values read
   * at import time, the "validated" flag, and the one-slot key cache with its
   * timestamp (an unset cache is the empty list).
   */
  class AccessValidator {
    const teamDomain: Option<string>
    const audTag: Option<string>
    var validated: bool
    var keysCache: seq<Jwk>
    var keysCacheTime: int

    /** The flag is only set once the configuration is complete, and keys are only cached after that. */
    ghost predicate Valid()
      reads this
    {
      && (validated ==> ConfigComplete(teamDomain, audTag))
      && (keysCache != [] ==> validated)
    }

    constructor (teamDomain: Option<string>, audTag: Option<string>)
      ensures Valid()
      ensures this.teamDomain == teamDomain && this.audTag == audTag
      ensures !validated && keysCache == [] && keysCacheTime == 0
    {
      this.teamDomain := teamDomain;
      this.audTag := audTag;
      validated := false;
      keysCache := [];
      keysCacheTime := 0;
    }

    /**
     * Fails, naming the unset variables, unless both are set; sets the flag on
     * success. Once the flag is set it returns at once and changes nothing.
     */
    method ValidateConfig() returns (r: Result<(), AuthError>)
      requires Valid()
      modifies this`validated
      ensures Valid()
      ensures old(validated) ==> validated && r.Success?
      ensures validated == ConfigComplete(teamDomain, audTag)
      ensures r.Success? <==> ConfigComplete(teamDomain, audTag)
      ensures r.Failure? ==> r.error == ConfigError(MissingSettings(teamDomain, audTag))
    {
      if validated {
        return Success(());
      }
      var missing: seq<string> := [];
      if !IsSet(teamDomain) {
        missing := missing + [TeamDomainVar];
      }
      if !IsSet(audTag) {
        missing := missing + [AudTagVar];
      }
      if missing != [] {
        return Failure(ConfigError(missing));
      }
      validated := true;
      return Success(());
    }

    /**
     * Returns the cached keys when they are fresh; otherwise requests the key
     * list from the certs endpoint and, on success, replaces the cache with
     * it, stamped `now`. The configuration is checked first, and nothing is
     * requested when it fails.
     */
    method GetPublicKeys(now: int, endpoint: CertsEndpoint) returns (r: Result<seq<Jwk>, AuthError>)
      requires Valid()
      modifies this, endpoint
      ensures Valid()
      ensures validated == ConfigComplete(teamDomain, audTag)
      ensures !ConfigComplete(teamDomain, audTag) ==>
        && r == Failure(ConfigError(MissingSettings(teamDomain, audTag)))
        && endpoint.requests == old(endpoint.requests)
        && keysCache == old(keysCache) && keysCacheTime == old(keysCacheTime)
      ensures ConfigComplete(teamDomain, audTag) && CacheHit(old(keysCache), old(keysCacheTime), now) ==>
        && r == Success(old(keysCache))
        && endpoint.requests == old(endpoint.requests)
        && keysCache == old(keysCache) && keysCacheTime == old(keysCacheTime)
      ensures ConfigComplete(teamDomain, audTag) && !CacheHit(old(keysCache), old(keysCacheTime), now) ==>
        && endpoint.requests == old(endpoint.requests) + [CertsUrl(teamDomain.value)]
        && (endpoint.NextResponse(CertsUrl(teamDomain.value), old(endpoint.requests)).Fetched? ==>
              && keysCache == endpoint.NextResponse(CertsUrl(teamDomain.value), old(endpoint.requests)).keys
              && keysCacheTime == now
              && r == Success(keysCache))
        && (endpoint.NextResponse(CertsUrl(teamDomain.value), old(endpoint.requests)).FetchFailed? ==>
              && r == Failure(KeyFetchError)
              && keysCache == old(keysCache) && keysCacheTime == old(keysCacheTime))
    {
      var config := ValidateConfig();
      if config.Failure? {
        return Failure(config.error);
      }
      if keysCache != [] && now - keysCacheTime < CacheDuration {
        return Success(keysCache);
      }
      var response := endpoint.Get(CertsUrl(teamDomain.value));
      if response.FetchFailed? {
        return Failure(KeyFetchError);
      }
      keysCache := response.keys;
      keysCacheTime := now;
      return Success(keysCache);
    }

    /**
     * Validates a token: configuration, key list, unverified header, then the
     * `for key in keys` scan; the first key whose id equals the header's is
     * handed to the decoder with RS256, the configured audience and the
     * team-domain issuer.
     */
    method ValidateAccessJwt(
      token: string, now: int,
      endpoint: CertsEndpoint,
      parseHeader: string -> Option<Header>,
      decode: (string, Jwk, DecodeOptions) -> Result<Claims, string>
    ) returns (r: Result<Claims, AuthError>)
      requires Valid()
      modifies this, endpoint
      ensures Valid()
      ensures validated == ConfigComplete(teamDomain, audTag)
      ensures !ConfigComplete(teamDomain, audTag) ==>
        && r == Failure(ConfigError(MissingSettings(teamDomain, audTag)))
        && endpoint.requests == old(endpoint.requests)
        && keysCache == old(keysCache) && keysCacheTime == old(keysCacheTime)
      ensures ConfigComplete(teamDomain, audTag) && CacheHit(old(keysCache), old(keysCacheTime), now) ==>
        && endpoint.requests == old(endpoint.requests)
        && keysCache == old(keysCache) && keysCacheTime == old(keysCacheTime)
        && r == VerifyWithKeys(keysCache, parseHeader(token), token, decode,
                               ExpectedOptions(teamDomain.value, audTag.value))
      ensures ConfigComplete(teamDomain, audTag) && !CacheHit(old(keysCache), old(keysCacheTime), now) ==>
        && endpoint.requests == old(endpoint.requests) + [CertsUrl(teamDomain.value)]
        && (endpoint.NextResponse(CertsUrl(teamDomain.value), old(endpoint.requests)).Fetched? ==>
              && keysCache == endpoint.NextResponse(CertsUrl(teamDomain.value), old(endpoint.requests)).keys
              && keysCacheTime == now
              && r == VerifyWithKeys(keysCache, parseHeader(token), token, decode,
                                     ExpectedOptions(teamDomain.value, audTag.value)))
        && (endpoint.NextResponse(CertsUrl(teamDomain.value), old(endpoint.requests)).FetchFailed? ==>
              && r == Failure(KeyFetchError)
              && keysCache == old(keysCache) && keysCacheTime == old(keysCacheTime))
    {
      var config := ValidateConfig();
      if config.Failure? {
        return Failure(config.error);
      }
      var keysResult := GetPublicKeys(now, endpoint);
      if keysResult.Failure? {
        return Failure(keysResult.error);
      }
      var keys := keysResult.value;
      var header := parseHeader(token);
      if header.None? {
        return Failure(MalformedToken);
      }
      var kid := header.value.kid;
      var options := ExpectedOptions(teamDomain.value, audTag.value);
      var i := 0;
      while i < |keys|
        invariant 0 <= i <= |keys|
        invariant NoneMatchBefore(keys, kid, i)
      {
        if keys[i].kid.None? || kid.None? {
          LookupUnique(keys, kid, NoKid(i), FindKey(keys, kid));
          return Failure(KidLookupError);
        }
        if keys[i].kid == kid {
          LookupUnique(keys, kid, Match(i), FindKey(keys, kid));
          var decoded := decode(token, keys[i], options);
          if decoded.Failure? {
            return Failure(InvalidToken(decoded.error));
          }
          return Success(decoded.value);
        }
        i := i + 1;
      }
      LookupUnique(keys, kid, NoMatch, FindKey(keys, kid));
      return Failure(NoMatchingKey);
    }
  }

  /**
   * The remote certs endpoint, reduced to what the cache can observe: the log
   * of requests made to it, and the answer it gives to the n-th request for a
   * URL. The answers are arbitrary, so a later request may get a different
   * key list or fail.
   */
  class CertsEndpoint {
    const responses: (string, nat) -> FetchResult
    var requests: seq<string>

    constructor (responses: (string, nat) -> FetchResult)
      ensures this.responses == responses && requests == []
    {
      this.responses := responses;
      requests := [];
    }

    /** The answer the next request for `url` gets, after the requests in `log`. */
    function NextResponse(url: string, log: seq<string>): FetchResult {
      responses(url, |log|)
    }

    /** One GET request: it is logged, and answered according to `responses`. */
    method Get(url: string) returns (response: FetchResult)
      modifies this
      ensures requests == old(requests) + [url]
      ensures response == NextResponse(url, old(requests))
    {
      response := NextResponse(url, requests);
      requests := requests + [url];
    }
  }

  /**
   * Two key requests against one validator, counted in the endpoint's log.
   * Less than a window apart, they cause at most one request whenever the
   * first call hits the cache or its fetch yields a non-empty list; a full
   * window apart, a first call that misses is followed by a second request.
   * Without configuration no request is made at all.
   */
  method TwoKeyRequests(v: AccessValidator, endpoint: CertsEndpoint, t1: int, t2: int)
    returns (r1: Result<seq<Jwk>, AuthError>, r2: Result<seq<Jwk>, AuthError>)
    requires v.Valid()
    modifies v, endpoint
    ensures v.Valid()
    ensures ConfigComplete(v.teamDomain, v.audTag) && t2 - t1 < CacheDuration
      && (CacheHit(old(v.keysCache), old(v.keysCacheTime), t1)
          || (endpoint.NextResponse(CertsUrl(v.teamDomain.value), old(endpoint.requests)).Fetched?
              && endpoint.NextResponse(CertsUrl(v.teamDomain.value), old(endpoint.requests)).keys != []))
      ==> endpoint.requests == old(endpoint.requests) + [CertsUrl(v.teamDomain.value)]
          || endpoint.requests == old(endpoint.requests)
    ensures ConfigComplete(v.teamDomain, v.audTag) && t2 - t1 >= CacheDuration
      && !CacheHit(old(v.keysCache), old(v.keysCacheTime), t1)
      ==> endpoint.requests == old(endpoint.requests) + [CertsUrl(v.teamDomain.value), CertsUrl(v.teamDomain.value)]
    ensures !ConfigComplete(v.teamDomain, v.audTag) ==> endpoint.requests == old(endpoint.requests)
  {
    r1 := v.GetPublicKeys(t1, endpoint);
    r2 := v.GetPublicKeys(t2, endpoint);
  }

  // ---------------------------------------------------------------------------
  // Framework wrappers: the allow/deny decision
  // ---------------------------------------------------------------------------

  /** What a wrapper attaches to the request: `g.cf_access` (Flask) or `scope['cf_access']` (ASGI). */
  datatype Identity =
    | RequestAccess(email: Option<ClaimValue>, sub: Option<ClaimValue>, iat: Option<ClaimValue>,
                    exp: Option<ClaimValue>, token: Claims)
    | ScopeAccess(email: Option<ClaimValue>, sub: Option<ClaimValue>)

  /**
   * What happens to a request: a 401 with a message (the handler does not
   * run), the handler runs with the attached identity (`None` when no
   * identity is attached), or the request passes through untouched.
   */
  datatype Outcome = Unauthorized(message: string) | RunHandler(access: Option<Identity>) | PassThrough

  function StatusCode(o: Outcome): Option<int> {
    if o.Unauthorized? then Some(Unauthorized401) else None
  }

  /** `dict.get` on the decoded payload. */
  function Claim(claims: Claims, name: string): Option<ClaimValue> {
    if name in claims then Some(claims[name]) else None
  }

  function RequestIdentity(claims: Claims): Identity {
    RequestAccess(Claim(claims, "email"), Claim(claims, "sub"), Claim(claims, "iat"), Claim(claims, "exp"), claims)
  }

  function ScopeIdentity(claims: Claims): Identity {
    ScopeAccess(Claim(claims, "email"), Claim(claims, "sub"))
  }

  /** A Flask header value counts as a token when it is present and non-empty. */
  predicate TokenPresent(header: Option<string>) {
    header.Some? && header.value != ""
  }

  /**
   * `access_required`. `validation` is what validating the token yields; it is
   * consulted only when a token is present.
   */
  function AccessRequired(header: Option<string>, validation: Result<Claims, AuthError>): (o: Outcome)
    ensures o.RunHandler? <==> TokenPresent(header) && validation.Success?
    ensures o.RunHandler? ==> o.access == Some(RequestIdentity(validation.value))
    ensures !o.RunHandler? ==> StatusCode(o) == Some(401)
    ensures !TokenPresent(header) ==> o == Unauthorized(NoTokenMessage)
    ensures TokenPresent(header) && validation.Failure? ==> o == Unauthorized(InvalidTokenMessage)
  {
    if !TokenPresent(header) then Unauthorized(NoTokenMessage)
    else match validation
      case Success(claims) => RunHandler(Some(RequestIdentity(claims)))
      case Failure(_) => Unauthorized(InvalidTokenMessage)
  }

  /** `access_optional`: the identity starts as `None`, failures are swallowed, the handler always runs. */
  function AccessOptional(header: Option<string>, validation: Result<Claims, AuthError>): (o: Outcome)
    ensures o.RunHandler?
    ensures o.access.Some? <==> TokenPresent(header) && validation.Success?
    ensures o.access.Some? ==> o.access.value == RequestIdentity(validation.value)
  {
    if TokenPresent(header) && validation.Success? then RunHandler(Some(RequestIdentity(validation.value)))
    else RunHandler(None)
  }

  /**
   * `CloudflareAccessMiddleware.__call__`: `token` is the header value, the
   * empty string when the header is absent.
   */
  function Middleware(scopeType: string, required: bool, token: string, validation: Result<Claims, AuthError>): (o: Outcome)
    ensures o.PassThrough? <==> scopeType != "http"
    ensures scopeType == "http" ==> (o.Unauthorized? <==> required && (token == "" || validation.Failure?))
    ensures o.Unauthorized? ==> o.message == if token == "" then MiddlewareNoTokenMessage else MiddlewareInvalidTokenMessage
    ensures o.RunHandler? ==> o.access == if token != "" && validation.Success? then Some(ScopeIdentity(validation.value)) else None
  {
    if scopeType != "http" then PassThrough
    else if token == "" && required then Unauthorized(MiddlewareNoTokenMessage)
    else if token != "" then
      match validation
      case Success(claims) => RunHandler(Some(ScopeIdentity(claims)))
      case Failure(_) => if required then Unauthorized(MiddlewareInvalidTokenMessage) else RunHandler(None)
    else RunHandler(None)
  }

  /** Without a token no wrapper depends on the validation result, so validation need not run. */
  lemma NoTokenIgnoresValidation(header: Option<string>, v1: Result<Claims, AuthError>, v2: Result<Claims, AuthError>, scopeType: string, required: bool)
    requires !TokenPresent(header)
    ensures AccessRequired(header, v1) == AccessRequired(header, v2)
    ensures AccessOptional(header, v1) == AccessOptional(header, v2)
    ensures Middleware(scopeType, required, "", v1) == Middleware(scopeType, required, "", v2)
  {
  }

  /**
   * For HTTP requests the middleware and the decorators agree on who gets
   * through: in required mode with `access_required`, in optional mode with
   * `access_optional`.
   */
  lemma MiddlewareAgreesWithDecorators(token: string, validation: Result<Claims, AuthError>)
    ensures Middleware("http", true, token, validation).RunHandler? == AccessRequired(Some(token), validation).RunHandler?
    ensures Middleware("http", false, token, validation).RunHandler?
    ensures Middleware("http", false, token, validation).access.Some? == AccessOptional(Some(token), validation).access.Some?
  {
  }
}
