/** The server interceptor that guards every gRPC entry point of the gateway.
    Per call: Received, then Allowlisted (public method, straight to the
    handler) or Authenticating (bearer header, cache, auth service), ending
    Admitted or Rejected. Validity decisions are cached for one minute under
    the key "token_valid_" + token; the clock is a parameter. */
module TokenValidation {

  import opened Common
  import opened Grpc

  /** Milliseconds on the injected clock. */
  type Time = int

  /** `TimeSpan.FromMinutes(1)`, in milliseconds. */
  const CacheTtl: int := 60_000

  const CacheKeyPrefix: string := "token_valid_"
  const AuthorizationKey: string := "authorization"

  /** The public methods, exactly as listed (RegisterClient appears twice). */
  const PublicMethods: seq<string> := [
    "/client.ClientService/RegisterClient",
    "/client.ClientService/GetClient",
    "/client.ClientService/RegisterClient",
    "/auth.AuthService/Login",
    "/health"
  ]

  const MissingTokenMessage: string := "Missing or invalid token"
  const RevokedMessage: string := "Token has been revoked"
  const InvalidTokenMessage: string := "Invalid token"

  /** The auth service's answer to a validation request; each field may be null. */
  datatype TokenValidationResponse =
    TokenValidationResponse(isValid: bool, message: Option<string>, claims: Option<seq<Claim>>)

  /** What the call to the auth service's validation endpoint gives: a
      deserialised body (null when the body is JSON null), or an exception
      (transport failure, timeout, unreadable body). */
  datatype AuthCall = Answered(body: Option<TokenValidationResponse>) | CallFailed

  /** A cached decision and the instant from which it counts as absent. */
  datatype CacheEntry = CacheEntry(valid: bool, expiresAt: Time)

  type Cache = map<string, CacheEntry>

  /** How a call leaves the interceptor: handed to the continuation with
      these request headers, rejected with this status, or with the auth
      service's exception propagating (the interceptor catches nothing). */
  datatype Verdict = Admitted(headers: Metadata) | Rejected(status: Status) | Faulted

  /** A verdict together with the cache after the call. */
  datatype Transition = Transition(verdict: Verdict, cache: Cache)

  /** The allowlist: four distinct methods, whatever the listing repeats. */
  predicate IsPublic(rpcMethod: string)
    ensures IsPublic(rpcMethod) <==> rpcMethod in {"/client.ClientService/RegisterClient",
                                                   "/client.ClientService/GetClient",
                                                   "/auth.AuthService/Login", "/health"}
  {
    rpcMethod in PublicMethods
  }

  /** The `authorization` entry the interceptor reads: the first one. */
  function AuthHeader(headers: Metadata): Option<string>
  {
    FirstValue(headers, AuthorizationKey)
  }

  /** `authHeader.Substring(7)`: the header with its scheme prefix removed. */
  function TokenOf(header: string): (token: string)
    requires StartsWith(header, BearerPrefix)
    ensures BearerPrefix + token == header
  {
    header[7..]
  }

  /** The cache key of a token: the fixed prefix followed by the token. */
  function CacheKey(token: string): (key: string)
    ensures StartsWith(key, CacheKeyPrefix)
    ensures key[|CacheKeyPrefix|..] == token
  {
    CacheKeyPrefix + token
  }

  /** Different tokens never share a cache entry. */
  lemma CacheKeyInjective(a: string, b: string)
    ensures CacheKey(a) == CacheKey(b) ==> a == b
  {
    if CacheKey(a) == CacheKey(b) {
      assert a == CacheKey(a)[|CacheKeyPrefix|..];
    }
  }

  /** The key a call touches, when its header passes the bearer check. */
  function CallKey(headers: Metadata): (k: Option<string>)
    ensures k.Some? <==> HasBearerScheme(AuthHeader(headers))
  {
    var h := AuthHeader(headers);
    if HasBearerScheme(h) then Some(CacheKey(TokenOf(h.value))) else None
  }

  /** `TryGetValue` at time `now`: an entry that has expired counts as absent. */
  function Lookup(cache: Cache, key: string, now: Time): (r: Option<bool>)
    ensures r.Some? <==> key in cache && now < cache[key].expiresAt
    ensures r.Some? ==> r.value == cache[key].valid
  {
    if key in cache && now < cache[key].expiresAt then Some(cache[key].valid) else None
  }

  /** `Set(key, valid, TimeSpan.FromMinutes(1))` at time `now`: overwrites any
      earlier entry for the key and leaves every other key alone. */
  function Store(cache: Cache, key: string, valid: bool, now: Time): (c: Cache)
    ensures key in c && c[key] == CacheEntry(valid, now + CacheTtl)
    ensures forall k :: k != key ==> (k in c <==> k in cache)
    ensures forall k :: k != key && k in cache ==> c[k] == cache[k]
  {
    cache[key := CacheEntry(valid, now + CacheTtl)]
  }

  /** A stored decision is found for one TTL and not after. */
  lemma StoreThenLookup(cache: Cache, key: string, valid: bool, now: Time, later: Time)
    ensures Lookup(Store(cache, key, valid, now), key, later) == if later < now + CacheTtl then Some(valid) else None
  {
  }

  /** The request headers the claims add: one entry per claim, keyed by its
      type, in the order the auth service gave them. */
  function ClaimHeaders(claims: seq<Claim>): (m: Metadata)
    ensures |m| == |claims|
    ensures forall i :: 0 <= i < |claims| ==> m[i] == Entry(claims[i].claimType, claims[i].value)
  {
    if claims == [] then []
    else [Entry(claims[0].claimType, claims[0].value)] + ClaimHeaders(claims[1..])
  }

  /** True when the call reaches the auth service: not public, a bearer
      header, and no unexpired decision on file for its key. */
  predicate Consults(cache: Cache, now: Time, rpcMethod: string, headers: Metadata)
  {
    !IsPublic(rpcMethod) && CallKey(headers).Some? && Lookup(cache, CallKey(headers).value, now).None?
  }

  /** One call through the interceptor: the verdict and the cache afterwards.
      Every rejection is Unauthenticated; a fault happens only when the auth
      service was consulted and leaves the cache alone; an admitted call is
      public or carries a bearer header, keeps its request headers as a
      prefix, and still has the caller's authorization entry first. */
  function Handle(cache: Cache, now: Time, rpcMethod: string, headers: Metadata,
                  validate: string -> AuthCall): (r: Transition)
    ensures r.verdict.Rejected? ==> r.verdict.status.code == Unauthenticated
    ensures r.verdict.Faulted? ==> Consults(cache, now, rpcMethod, headers) && r.cache == cache
    ensures r.verdict.Admitted? ==> IsPublic(rpcMethod) || HasBearerScheme(AuthHeader(headers))
    ensures r.verdict.Admitted? ==> |headers| <= |r.verdict.headers| && r.verdict.headers[..|headers|] == headers
    ensures r.verdict.Admitted? ==> AuthHeader(r.verdict.headers) == AuthHeader(headers)
  {
    if IsPublic(rpcMethod) then Transition(Admitted(headers), cache)
    else
      var h := AuthHeader(headers);
      if !HasBearerScheme(h) then Transition(Rejected(Status(Unauthenticated, MissingTokenMessage)), cache)
      else
        var key := CacheKey(TokenOf(h.value));
        match Lookup(cache, key, now)
        case Some(valid) =>
          if valid then Transition(Admitted(headers), cache)
          else Transition(Rejected(Status(Unauthenticated, RevokedMessage)), cache)
        case None =>
          match validate(h.value)
          case CallFailed => Transition(Faulted, cache)
          case Answered(None) =>
            Transition(Rejected(Status(Unauthenticated, InvalidTokenMessage)), Store(cache, key, false, now))
          case Answered(Some(result)) =>
            if !result.isValid then
              Transition(Rejected(Status(Unauthenticated, result.message.GetOr(InvalidTokenMessage))),
                         Store(cache, key, false, now))
            else
              var added := ClaimHeaders(result.claims.GetOr([]));
              FirstWithAppend(headers, added, EntryKey, EntryValue, AuthorizationKey);
              Transition(Admitted(headers + added), Store(cache, key, true, now))
  }

  /** The interceptor object; its cache is the process-wide memory cache. */
  class TokenValidationInterceptor {
    var cache: Cache

    constructor ()
      ensures cache == map[]
    {
      cache := map[];
    }

    /** `UnaryServerHandler`: decides the call, updates the cache and, on a
        fresh positive validation, appends the claims to the request headers
        one by one. */
    method UnaryServerHandler(rpcMethod: string, requestHeaders: Metadata, now: Time,
                              validate: string -> AuthCall) returns (verdict: Verdict)
      modifies this
      ensures Transition(verdict, cache) == Handle(old(cache), now, rpcMethod, requestHeaders, validate)
    {
      if rpcMethod in PublicMethods {
        return Admitted(requestHeaders);
      }
      var authHeader := FirstValue(requestHeaders, AuthorizationKey);
      if !HasBearerScheme(authHeader) {
        return Rejected(Status(Unauthenticated, MissingTokenMessage));
      }
      var token := authHeader.value[7..];
      var cacheKey := CacheKeyPrefix + token;
      var cached := Lookup(cache, cacheKey, now);
      var headers := requestHeaders;
      if cached.Some? {
        if !cached.value {
          return Rejected(Status(Unauthenticated, RevokedMessage));
        }
      } else {
        var reply := validate(authHeader.value);
        if reply.CallFailed? {
          return Faulted;
        }
        var result := reply.body;
        if result.None? || !result.value.isValid {
          cache := Store(cache, cacheKey, false, now);
          var message := if result.Some? then result.value.message.GetOr(InvalidTokenMessage) else InvalidTokenMessage;
          return Rejected(Status(Unauthenticated, message));
        }
        cache := Store(cache, cacheKey, true, now);
        var claims := result.value.claims.GetOr([]);
        var i := 0;
        while i < |claims|
          invariant 0 <= i <= |claims|
          invariant headers == requestHeaders + ClaimHeaders(claims[..i])
        {
          headers := headers + [Entry(claims[i].claimType, claims[i].value)];
          i := i + 1;
        }
        assert claims[..|claims|] == claims;
      }
      return Admitted(headers);
    }
  }

  // ----- Properties of one call -----

  /** A public method goes straight to the handler with its headers as they
      are; the cache is unchanged and the auth service is not consulted. */
  lemma PublicMethodBypassesAuthentication(cache: Cache, now: Time, rpcMethod: string, headers: Metadata,
                                           validate: string -> AuthCall)
    requires IsPublic(rpcMethod)
    ensures Handle(cache, now, rpcMethod, headers, validate) == Transition(Admitted(headers), cache)
    ensures !Consults(cache, now, rpcMethod, headers)
  {
  }

  /** Off the allowlist, a missing, empty or non-bearer header is rejected as
      unauthenticated; nothing is cached and the auth service is not consulted. */
  lemma MissingBearerRejected(cache: Cache, now: Time, rpcMethod: string, headers: Metadata,
                              validate: string -> AuthCall)
    requires !IsPublic(rpcMethod)
    requires IsNullOrEmpty(AuthHeader(headers)) || !StartsWith(AuthHeader(headers).value, BearerPrefix)
    ensures Handle(cache, now, rpcMethod, headers, validate)
            == Transition(Rejected(Status(Unauthenticated, MissingTokenMessage)), cache)
    ensures !Consults(cache, now, rpcMethod, headers)
  {
  }

  /** The key of a "Bearer " + token header is "token_valid_" + token. */
  lemma BearerTokenKey(headers: Metadata, token: string)
    requires AuthHeader(headers) == Some(BearerPrefix + token)
    ensures CallKey(headers) == Some(CacheKeyPrefix + token)
  {
    assert StartsWith(BearerPrefix + token, BearerPrefix);
    assert TokenOf(BearerPrefix + token) == token;
  }

  /** An unexpired negative decision rejects the call as revoked, leaving the
      cache as it was, without consulting the auth service. */
  lemma CachedInvalidRejected(cache: Cache, now: Time, rpcMethod: string, headers: Metadata,
                              validate: string -> AuthCall)
    requires !IsPublic(rpcMethod) && CallKey(headers).Some?
    requires Lookup(cache, CallKey(headers).value, now) == Some(false)
    ensures Handle(cache, now, rpcMethod, headers, validate)
            == Transition(Rejected(Status(Unauthenticated, RevokedMessage)), cache)
  {
  }

  /** An unexpired positive decision admits the call with its headers as they
      are (no claims are attached), leaving the cache as it was, without
      consulting the auth service. */
  lemma CachedValidAdmittedWithoutClaims(cache: Cache, now: Time, rpcMethod: string, headers: Metadata,
                                         validate: string -> AuthCall)
    requires !IsPublic(rpcMethod) && CallKey(headers).Some?
    requires Lookup(cache, CallKey(headers).value, now) == Some(true)
    ensures Handle(cache, now, rpcMethod, headers, validate) == Transition(Admitted(headers), cache)
  {
  }

  /** On a miss with a null body or IsValid = false, the key is set to false
      for one TTL and the call is rejected with the service's message, or
      "Invalid token" when the body or its message is null. */
  lemma NegativeValidationCached(cache: Cache, now: Time, rpcMethod: string, headers: Metadata,
                                 validate: string -> AuthCall)
    requires Consults(cache, now, rpcMethod, headers)
    requires validate(AuthHeader(headers).value).Answered?
    requires var body := validate(AuthHeader(headers).value).body; body.None? || !body.value.isValid
    ensures var body := validate(AuthHeader(headers).value).body;
            var message := if body.Some? && body.value.message.Some? then body.value.message.value else InvalidTokenMessage;
            Handle(cache, now, rpcMethod, headers, validate)
            == Transition(Rejected(Status(Unauthenticated, message)), Store(cache, CallKey(headers).value, false, now))
  {
  }

  /** On a miss with IsValid = true, the key is set to true for one TTL and the
      call is admitted with one header per claim appended, in order (none
      when Claims is null); a claim cannot displace the authorization entry
      the interceptor read. */
  lemma PositiveValidationCachedWithClaims(cache: Cache, now: Time, rpcMethod: string, headers: Metadata,
                                           validate: string -> AuthCall)
    requires Consults(cache, now, rpcMethod, headers)
    requires validate(AuthHeader(headers).value).Answered?
    requires var body := validate(AuthHeader(headers).value).body; body.Some? && body.value.isValid
    ensures var claims := validate(AuthHeader(headers).value).body.value.claims;
            var t := Handle(cache, now, rpcMethod, headers, validate);
            && t.cache == Store(cache, CallKey(headers).value, true, now)
            && t.verdict.Admitted?
            && t.verdict.headers[..|headers|] == headers
            && (claims.None? ==> t.verdict.headers == headers)
            && (claims.Some? ==>
                  && |t.verdict.headers| == |headers| + |claims.value|
                  && forall i :: 0 <= i < |claims.value| ==>
                       t.verdict.headers[|headers| + i] == Entry(claims.value[i].claimType, claims.value[i].value))
            && AuthHeader(t.verdict.headers) == AuthHeader(headers)
  {
  }

  /** When the auth service call throws, the exception propagates and nothing
      is cached. */
  lemma FailedValidationCachesNothing(cache: Cache, now: Time, rpcMethod: string, headers: Metadata,
                                      validate: string -> AuthCall)
    requires Consults(cache, now, rpcMethod, headers)
    requires validate(AuthHeader(headers).value).CallFailed?
    ensures Handle(cache, now, rpcMethod, headers, validate) == Transition(Faulted, cache)
  {
  }

  /** Only the entry for this call's key is ever written, only when the auth
      service was consulted, and a write sets a fresh one-TTL expiry. */
  lemma {:induction false} HandleCacheFrame(cache: Cache, now: Time, rpcMethod: string, headers: Metadata,
                                            validate: string -> AuthCall)
    ensures var t := Handle(cache, now, rpcMethod, headers, validate);
            && (forall k :: CallKey(headers) != Some(k) ==> (k in t.cache <==> k in cache))
            && (forall k :: CallKey(headers) != Some(k) && k in cache ==> t.cache[k] == cache[k])
            && (t.cache != cache ==>
                  && Consults(cache, now, rpcMethod, headers)
                  && t.cache[CallKey(headers).value].expiresAt == now + CacheTtl)
  {
  }

  /** The auth service is consulted only when `Consults` holds: otherwise the
      call's outcome is the same whatever the service would answer. */
  lemma NoConsultNoDependence(cache: Cache, now: Time, rpcMethod: string, headers: Metadata,
                              v1: string -> AuthCall, v2: string -> AuthCall)
    requires !Consults(cache, now, rpcMethod, headers)
    ensures Handle(cache, now, rpcMethod, headers, v1) == Handle(cache, now, rpcMethod, headers, v2)
  {
  }

  /** When it is consulted, it is asked about the original authorization header
      and nothing else: two services that agree on that header give the same
      outcome. */
  lemma ConsultsWithOriginalHeader(cache: Cache, now: Time, rpcMethod: string, headers: Metadata,
                                   v1: string -> AuthCall, v2: string -> AuthCall)
    requires AuthHeader(headers).Some? ==> v1(AuthHeader(headers).value) == v2(AuthHeader(headers).value)
    ensures Handle(cache, now, rpcMethod, headers, v1) == Handle(cache, now, rpcMethod, headers, v2)
  {
  }

  // ----- Properties of successive calls -----

  /** After a call that validated a token with the auth service and was
      admitted, any later call with the same authorization header within the
      TTL is admitted without consulting the service, and without the claims
      being attached again: its headers are passed on as they are. */
  lemma {:induction false} SecondCallWithinTtlSkipsAuthService(
    cache: Cache, now: Time, rpcMethod: string, headers: Metadata, validate: string -> AuthCall,
    later: Time, rpcMethod2: string, headers2: Metadata, validate2: string -> AuthCall)
    requires Consults(cache, now, rpcMethod, headers)
    requires Handle(cache, now, rpcMethod, headers, validate).verdict.Admitted?
    requires !IsPublic(rpcMethod2) && AuthHeader(headers2) == AuthHeader(headers)
    requires later < now + CacheTtl
    ensures var c1 := Handle(cache, now, rpcMethod, headers, validate).cache;
            && !Consults(c1, later, rpcMethod2, headers2)
            && Handle(c1, later, rpcMethod2, headers2, validate2) == Transition(Admitted(headers2), c1)
  {
    var key := CallKey(headers).value;
    assert CallKey(headers2) == CallKey(headers);
    StoreThenLookup(cache, key, true, now, later);
  }

  /** After a call whose token the auth service rejected, any later call with
      the same header within the TTL is rejected as revoked without consulting
      the service. */
  lemma {:induction false} RejectedTokenStaysRevokedWithinTtl(
    cache: Cache, now: Time, rpcMethod: string, headers: Metadata, validate: string -> AuthCall,
    later: Time, rpcMethod2: string, headers2: Metadata, validate2: string -> AuthCall)
    requires Consults(cache, now, rpcMethod, headers)
    requires Handle(cache, now, rpcMethod, headers, validate).verdict.Rejected?
    requires !IsPublic(rpcMethod2) && AuthHeader(headers2) == AuthHeader(headers)
    requires later < now + CacheTtl
    ensures var c1 := Handle(cache, now, rpcMethod, headers, validate).cache;
            && !Consults(c1, later, rpcMethod2, headers2)
            && Handle(c1, later, rpcMethod2, headers2, validate2)
               == Transition(Rejected(Status(Unauthenticated, RevokedMessage)), c1)
  {
    var key := CallKey(headers).value;
    assert CallKey(headers2) == CallKey(headers);
    StoreThenLookup(cache, key, false, now, later);
  }

  /** Once the TTL of a decision made at `now` has elapsed, the next call with
      that header consults the auth service again, whatever was decided. */
  lemma {:induction false} DecisionExpiresAfterTtl(
    cache: Cache, now: Time, rpcMethod: string, headers: Metadata, validate: string -> AuthCall,
    later: Time, rpcMethod2: string, headers2: Metadata)
    requires Consults(cache, now, rpcMethod, headers)
    requires !IsPublic(rpcMethod2) && AuthHeader(headers2) == AuthHeader(headers)
    requires later >= now + CacheTtl
    ensures Consults(Handle(cache, now, rpcMethod, headers, validate).cache, later, rpcMethod2, headers2)
  {
    var key := CallKey(headers).value;
    assert CallKey(headers2) == CallKey(headers);
    StoreThenLookup(cache, key, false, now, later);
    StoreThenLookup(cache, key, true, now, later);
  }
}
