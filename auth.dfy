/** Bearer-token verification (app/auth.py): the process-wide key-list cache
    `_jwks_cache`, the two-strategy `get_current_user`, the `require_role`
    guard and the `get_current_user_optional` wrapper.

    The jose library and the key endpoint are oracles: the model is told what
    `jwt.decode` with HS256, `jwt.get_unverified_header`, `jwt.decode` with a
    given RS256 key and the JWKS request would give for the token at hand, and
    decides everything else the way the source does. */
module Auth {
  import opened Basics

  /** A decoded JWT payload; only string-valued claims are modelled. */
  type Claims = map<string, string>

  const UNAUTHORIZED: nat := 401

  /** Detail prefix for a JWTError (or StopIteration) caught at line 98. */
  const INVALID_PREFIX := "Invalid or expired authentication token: "
  /** Detail prefix for any other exception caught at line 101. */
  const FAILED_PREFIX := "Authentication failed: "
  const NO_KEY_NO_SECRET := "Public key not found and no symmetric secret configured"
  const NO_METHOD := "Authentication failed: No valid verification method found"
  const INVALID_PAYLOAD := "Invalid token payload"
  /** `str(KeyError('kid'))`. */
  const KID_KEY_ERROR := "'kid'"
  /** The AttributeError of reading `.credentials` on an absent credentials object. */
  const NO_CREDENTIALS := "'NoneType' object has no attribute 'credentials'"
  /** The detail an `HTTPException(status_code=403)` carries by default. */
  const FORBIDDEN_PHRASE := "Forbidden"

  /** `str()` of an HTTPException: the framework renders it "status: detail". */
  function HttpExceptionText(status: nat, detail: string): string {
    NatToString(status) + ": " + detail
  }

  /** One entry of the JWKS `keys` array; `kid` is None when the entry has no
      "kid" member, and `material` stands for the rest of the key. */
  datatype Jwk = Jwk(kid: Option<string>, material: string)

  /** The unverified JOSE header; `kid` is None when it has no "kid". */
  datatype Header = Header(kid: Option<string>)

  /** What a jose call gives: a value, a JWTError, or some other exception. */
  datatype Decoded<T> = Decoded(value: T) | JwtError(message: string) | OtherError(message: string)

  /** What fetching the key list gives: `res.json()["keys"]`, or the message of
      the exception raised by the request, `raise_for_status` or the JSON
      access. `FetchKeys` also returns this type for `_get_jwks`'s own
      outcome. */
  datatype KeyFetch = KeysFetched(keys: seq<Jwk>) | KeysUnavailable(message: string)

  /** The library's answers for the token under verification. */
  datatype Oracles = Oracles(
    hs256: Decoded<Claims>,
    header: Decoded<Header>,
    rs256: Jwk -> Decoded<Claims>,
    keysEndpoint: KeyFetch)

  /** `_jwks_cache`: None until the first successful fetch, then a list. */
  type CachedKeys = Option<seq<Jwk>>

  /** Python truthiness of the cache: None and [] are both falsy. */
  predicate Truthy(cache: CachedKeys) {
    cache.Some? && |cache.value| > 0
  }

  /** `if jwt_secret:` on the value of SUPABASE_JWT_SECRET. */
  predicate SecretConfigured(secret: Option<string>) {
    secret.Some? && secret.value != ""
  }

  /** `_get_jwks` (lines 26-35) as a transition: what it returns and the cache
      afterwards. */
  function FetchKeys(cache: CachedKeys, endpoint: KeyFetch): (CachedKeys, KeyFetch) {
    if Truthy(cache) then (cache, KeysFetched(cache.value))
    else match endpoint
      case KeysFetched(ks) => (Some(ks), endpoint)
      case KeysUnavailable(_) => (cache, endpoint)
  }

  /** The outcome of `get_current_user`: the payload, an AuthError (an
      HTTPException), or an exception that escapes the function. */
  datatype Outcome = Authenticated(claims: Claims) | Rejected(error: HttpError) | Unhandled(message: string)

  function Reject(detail: string): Outcome {
    Rejected(HttpError(UNAUTHORIZED, detail))
  }

  /** The `except` clauses of lines 98-103 applied to a failed jose call. */
  function Folded<T>(d: Decoded<T>): Outcome
    requires !d.Decoded?
  {
    if d.JwtError? then Reject(INVALID_PREFIX + d.message) else Reject(FAILED_PREFIX + d.message)
  }

  /** Every entry before `n` has a kid, the header has one, and they differ:
      the generator of lines 77-79 went past those entries without raising. */
  predicate PassedOver(keys: seq<Jwk>, kid: Option<string>, n: nat)
    requires n <= |keys|
  {
    forall j :: 0 <= j < n ==> keys[j].kid.Some? && kid.Some? && keys[j].kid != kid
  }

  /** The result of `next((k for k in jwks if k["kid"] == header["kid"]), None)`:
      the index of the key found, no key, or a KeyError for a missing "kid". */
  datatype KeySearch = Found(index: nat) | NotFound | KidMissing

  function FindKey(keys: seq<Jwk>, kid: Option<string>): (r: KeySearch)
    ensures r.Found? ==> r.index < |keys| && PassedOver(keys, kid, r.index)
                         && kid.Some? && keys[r.index].kid == kid
    ensures r.NotFound? <==> PassedOver(keys, kid, |keys|)
    ensures r.KidMissing? ==> exists j :: 0 <= j < |keys| && PassedOver(keys, kid, j)
                                 && (keys[j].kid.None? || kid.None?)
  {
    if |keys| == 0 then NotFound
    else if keys[0].kid.None? || kid.None? then KidMissing
    else if keys[0].kid == kid then Found(0)
    else
      var rest := FindKey(keys[1..], kid);
      assert forall j :: 0 < j < |keys| ==> keys[1..][j - 1] == keys[j];
      match rest
      case Found(i) => Found(i + 1)
      case NotFound => NotFound
      case KidMissing =>
        var j :| 0 <= j < |keys| - 1 && PassedOver(keys[1..], kid, j)
                 && (keys[1..][j].kid.None? || kid.None?);
        assert PassedOver(keys, kid, j + 1);
        KidMissing
  }

  /** The search of lines 77-79 stops at the first entry whose kid equals the
      header's, once every earlier entry was passed over. */
  lemma {:induction false} FindKeyIsFirstMatch(keys: seq<Jwk>, kid: Option<string>, i: nat)
    requires i < |keys| && kid.Some? && keys[i].kid == kid && PassedOver(keys, kid, i)
    ensures FindKey(keys, kid) == Found(i)
  {
    if i > 0 {
      assert keys[0].kid.Some? && keys[0].kid != kid;
      assert PassedOver(keys[1..], kid, i - 1) by {
        forall j | 0 <= j < i - 1 ensures keys[1..][j] == keys[j + 1] { }
      }
      FindKeyIsFirstMatch(keys[1..], kid, i - 1);
    }
  }

  /** Strategy 2 (lines 73-96) and the closing `sub` check (lines 105-110).
      `secretTried` says whether a secret was configured. */
  function VerifyRs256(secretTried: bool, o: Oracles, cache: CachedKeys): (CachedKeys, Outcome) {
    match o.header
    case JwtError(m) => (cache, Reject(INVALID_PREFIX + m))
    case OtherError(m) => (cache, Reject(FAILED_PREFIX + m))
    case Decoded(h) =>
      var (cache', fetched) := FetchKeys(cache, o.keysEndpoint);
      match fetched
      case KeysUnavailable(m) => (cache', Reject(FAILED_PREFIX + m))
      case KeysFetched(ks) =>
        match FindKey(ks, h.kid)
        case KidMissing => (cache', Reject(FAILED_PREFIX + KID_KEY_ERROR))
        case NotFound =>
          // The AuthError raised inside the `try` is re-wrapped by line 103.
          var inner := if secretTried then NO_METHOD else NO_KEY_NO_SECRET;
          (cache', Reject(FAILED_PREFIX + HttpExceptionText(UNAUTHORIZED, inner)))
        case Found(i) =>
          var d := o.rs256(ks[i]);
          if !d.Decoded? then (cache', Folded(d))
          else if "sub" in d.value then (cache', Authenticated(d.value))
          else (cache', Reject(INVALID_PAYLOAD))
  }

  /** `get_current_user` (lines 39-110) as a function of the credentials
      (None when no Authorization header was sent), the configured secret,
      the library's answers and the cache; it gives the new cache and the
      outcome. */
  function Verify(token: Option<string>, secret: Option<string>, o: Oracles, cache: CachedKeys)
    : (CachedKeys, Outcome)
  {
    if token.None? then (cache, Unhandled(NO_CREDENTIALS))
    else if SecretConfigured(secret) && o.hs256.Decoded? && "sub" in o.hs256.value then
      (cache, Authenticated(o.hs256.value))
    else if SecretConfigured(secret) && o.hs256.OtherError? then
      (cache, Reject(FAILED_PREFIX + o.hs256.message))
    else VerifyRs256(SecretConfigured(secret), o, cache)
  }

  /** The dependency built by `require_role(role)`: only the token's own
      "role" claim is compared; no table is consulted. */
  function RequireRole(role: string, user: Claims): (r: Response<Claims>)
    ensures r.Ok? <==> "role" in user && user["role"] == role
    ensures r.Ok? ==> r.value == user
    ensures !r.Ok? ==> r == Raised(HttpError(FORBIDDEN, FORBIDDEN_PHRASE))
  {
    if "role" in user && user["role"] == role then Ok(user)
    else Raised(HttpError(FORBIDDEN, FORBIDDEN_PHRASE))
  }

  /** `get_current_user_optional` (lines 121-129): no credentials or an empty
      token give None without verifying; otherwise every failure gives None. */
  function VerifyOptional(credentials: Option<string>, secret: Option<string>, o: Oracles,
                          cache: CachedKeys): (CachedKeys, Option<Claims>)
  {
    if credentials.None? || credentials.value == "" then (cache, None)
    else
      var (cache', out) := Verify(credentials, secret, o, cache);
      (cache', if out.Authenticated? then Some(out.claims) else None)
  }

  /** A cache that is already filled is returned as is, whatever the endpoint
      would answer, and stays as it is. */
  lemma CachedKeysNeedNoFetch(cache: CachedKeys, e1: KeyFetch, e2: KeyFetch)
    requires Truthy(cache)
    ensures FetchKeys(cache, e1) == FetchKeys(cache, e2) == (cache, KeysFetched(cache.value))
  {
  }

  /** With a falsy cache (None or []) the endpoint is asked: its keys are
      stored and returned, and a failed fetch leaves the cache as it was. */
  lemma FalsyCacheFetches(cache: CachedKeys, endpoint: KeyFetch)
    requires !Truthy(cache)
    ensures endpoint.KeysFetched? ==> FetchKeys(cache, endpoint) == (Some(endpoint.keys), endpoint)
    ensures endpoint.KeysUnavailable? ==> FetchKeys(cache, endpoint) == (cache, endpoint)
  {
  }

  /** An empty key list is stored but stays falsy, so the next call fetches
      again; a non-empty one is served from the cache from then on. */
  lemma FetchedKeysServeLaterCalls(cache: CachedKeys, ks: seq<Jwk>, later: KeyFetch)
    requires !Truthy(cache)
    ensures var (c1, _) := FetchKeys(cache, KeysFetched(ks));
            (|ks| > 0 ==> FetchKeys(c1, later) == (c1, KeysFetched(ks)))
            && (|ks| == 0 ==> FetchKeys(c1, later).1 == later)
  {
  }

  /** Whatever the path, the cache either stays or receives the keys the
      endpoint gave, and the latter only when it was falsy. */
  lemma VerifyOnlyFillsCache(token: Option<string>, secret: Option<string>, o: Oracles,
                             cache: CachedKeys)
    ensures var (c1, _) := Verify(token, secret, o, cache);
            c1 == cache
            || (!Truthy(cache) && o.keysEndpoint.KeysFetched? && c1 == Some(o.keysEndpoint.keys))
  {
  }

  /** A payload `get_current_user` returns always carries "sub". */
  lemma AuthenticatedHasSub(token: Option<string>, secret: Option<string>, o: Oracles,
                            cache: CachedKeys)
    ensures var (_, out) := Verify(token, secret, o, cache);
            out.Authenticated? ==> "sub" in out.claims
  {
  }

  /** With a secret configured and an HS256 payload carrying "sub", that
      payload is returned before the header is read or the cache consulted:
      the cache comes back unchanged, whatever the header and the key
      endpoint would have said. */
  lemma Hs256ShortCircuits(token: string, secret: Option<string>, o: Oracles, cache: CachedKeys)
    requires SecretConfigured(secret) && o.hs256.Decoded? && "sub" in o.hs256.value
    ensures Verify(Some(token), secret, o, cache) == (cache, Authenticated(o.hs256.value))
  {
  }

  /** A JWTError from HS256, or an HS256 payload without "sub", falls through
      to strategy 2 instead of failing; so does a missing secret. */
  lemma Hs256FallsThrough(token: string, secret: Option<string>, o: Oracles, cache: CachedKeys)
    requires !SecretConfigured(secret) || o.hs256.JwtError?
             || (o.hs256.Decoded? && "sub" !in o.hs256.value)
    ensures Verify(Some(token), secret, o, cache) == VerifyRs256(SecretConfigured(secret), o, cache)
  {
  }

  /** Strategy 2 decodes with the FIRST listed key whose kid equals the
      header's kid; the outcome is that key's decoding, folded as the
      `except` clauses and the `sub` check say. */
  lemma {:induction false} FirstMatchingKeyDecides(secretTried: bool, o: Oracles, cache: CachedKeys,
                                                   h: Header, ks: seq<Jwk>, i: nat)
    requires o.header == Decoded(h)
    requires FetchKeys(cache, o.keysEndpoint).1 == KeysFetched(ks)
    requires i < |ks| && h.kid.Some? && ks[i].kid == h.kid && PassedOver(ks, h.kid, i)
    ensures var (c1, out) := VerifyRs256(secretTried, o, cache);
            var d := o.rs256(ks[i]);
            c1 == FetchKeys(cache, o.keysEndpoint).0
            && (d.JwtError? ==> out == Reject(INVALID_PREFIX + d.message))
            && (d.OtherError? ==> out == Reject(FAILED_PREFIX + d.message))
            && (d.Decoded? && "sub" in d.value ==> out == Authenticated(d.value))
            && (d.Decoded? && "sub" !in d.value ==> out == Reject(INVALID_PAYLOAD))
  {
    FindKeyIsFirstMatch(ks, h.kid, i);
  }

  /** When no listed key carries the header's kid, the message depends on
      whether a secret was configured, and is re-wrapped with the
      "Authentication failed: " prefix by the generic handler; still a 401. */
  lemma NoMatchingKeyMessage(secret: Option<string>, o: Oracles, cache: CachedKeys, h: Header,
                             ks: seq<Jwk>)
    requires o.header == Decoded(h)
    requires FetchKeys(cache, o.keysEndpoint).1 == KeysFetched(ks)
    requires h.kid.Some? && forall j :: 0 <= j < |ks| ==> ks[j].kid.Some? && ks[j].kid != h.kid
    ensures VerifyRs256(SecretConfigured(secret), o, cache).1
            == Reject(FAILED_PREFIX + ("401: "
                      + (if SecretConfigured(secret) then NO_METHOD else NO_KEY_NO_SECRET)))
  {
    var inner := if SecretConfigured(secret) then NO_METHOD else NO_KEY_NO_SECRET;
    assert FindKey(ks, h.kid) == NotFound;
    UnauthorizedText(inner);
    assert VerifyRs256(SecretConfigured(secret), o, cache).1
           == Reject(FAILED_PREFIX + HttpExceptionText(UNAUTHORIZED, inner));
  }

  /** The text of a 401 HTTPException: "401: " and its detail. */
  lemma UnauthorizedText(detail: string)
    ensures HttpExceptionText(UNAUTHORIZED, detail) == "401: " + detail
  {
    assert NatToString(401) == "401" by {
      assert NatToString(40) == "40" by { assert NatToString(4) == "4"; }
    }
  }

  /** Every outcome of strategy 2 is the payload or a 401 whose detail
      carries one of the two handler prefixes or is the missing-`sub` one. */
  lemma Rs256FailuresAre401(secretTried: bool, o: Oracles, cache: CachedKeys)
    ensures var out := VerifyRs256(secretTried, o, cache).1;
            out.Authenticated? ||
            (out.Rejected? && out.error.status == UNAUTHORIZED
             && (StartsWith(out.error.detail, INVALID_PREFIX)
                 || StartsWith(out.error.detail, FAILED_PREFIX)
                 || out.error.detail == INVALID_PAYLOAD))
  {
    forall m: string
      ensures StartsWith(INVALID_PREFIX + m, INVALID_PREFIX) && StartsWith(FAILED_PREFIX + m, FAILED_PREFIX)
    {
      assert (INVALID_PREFIX + m)[..|INVALID_PREFIX|] == INVALID_PREFIX;
      assert (FAILED_PREFIX + m)[..|FAILED_PREFIX|] == FAILED_PREFIX;
    }
  }

  /** With credentials present every failure comes back as a 401 AuthError
      whose detail starts with one of the two handler prefixes or is the
      missing-`sub` message; nothing escapes unfolded. */
  lemma PresentTokenFailuresAre401(token: string, secret: Option<string>, o: Oracles,
                                   cache: CachedKeys)
    ensures var (_, out) := Verify(Some(token), secret, o, cache);
            out.Authenticated? ||
            (out.Rejected? && out.error.status == UNAUTHORIZED
             && (StartsWith(out.error.detail, INVALID_PREFIX)
                 || StartsWith(out.error.detail, FAILED_PREFIX)
                 || out.error.detail == INVALID_PAYLOAD))
  {
    Rs256FailuresAre401(SecretConfigured(secret), o, cache);
    if SecretConfigured(secret) && o.hs256.OtherError? {
      assert (FAILED_PREFIX + o.hs256.message)[..|FAILED_PREFIX|] == FAILED_PREFIX;
    }
  }

  /** Without credentials the attribute access at line 42 raises outside the
      `try`: no AuthError is produced and the cache is not touched. */
  lemma AbsentCredentialsEscape(secret: Option<string>, o: Oracles, cache: CachedKeys)
    ensures Verify(None, secret, o, cache) == (cache, Unhandled(NO_CREDENTIALS))
  {
  }

  /** `require_role(r)` admits exactly the tokens whose own "role" claim is
      `r`; a missing claim always fails. */
  lemma MissingRoleClaimForbidden(role: string, user: Claims)
    requires "role" !in user
    ensures RequireRole(role, user) == Raised(HttpError(FORBIDDEN, FORBIDDEN_PHRASE))
  {
  }

  /** `get_current_user_optional` gives the verified payload exactly when the
      token is present, non-empty and verifies; it never raises, and it
      returns None without touching the cache for no or empty credentials. */
  lemma OptionalUserExact(credentials: Option<string>, secret: Option<string>, o: Oracles,
                          cache: CachedKeys)
    ensures var (c1, r) := VerifyOptional(credentials, secret, o, cache);
            (credentials.None? || credentials.value == "" ==> r.None? && c1 == cache)
            && (r.Some? <==> credentials.Some? && credentials.value != ""
                             && Verify(credentials, secret, o, cache).1.Authenticated?)
            && (r.Some? ==> r.value == Verify(credentials, secret, o, cache).1.claims
                            && "sub" in r.value)
  {
    if credentials.Some? && credentials.value != "" {
      AuthenticatedHasSub(credentials, secret, o, cache);
    }
  }

  /** The process-wide state of app/auth.py: the JWKS cache. */
  class Authenticator {
    var jwksCache: CachedKeys

    constructor ()
      ensures jwksCache == None
    {
      jwksCache := None;
    }

    /** `_get_jwks`. */
    method GetJwks(endpoint: KeyFetch) returns (r: KeyFetch)
      modifies this`jwksCache
      ensures (jwksCache, r) == FetchKeys(old(jwksCache), endpoint)
    {
      if Truthy(jwksCache) {
        return KeysFetched(jwksCache.value);
      }
      match endpoint {
        case KeysFetched(ks) =>
          jwksCache := Some(ks);
          return endpoint;
        case KeysUnavailable(_) =>
          return endpoint;
      }
    }

    /** `get_current_user`. */
    method GetCurrentUser(token: Option<string>, secret: Option<string>, o: Oracles)
      returns (r: Outcome)
      modifies this`jwksCache
      ensures (jwksCache, r) == Verify(token, secret, o, old(jwksCache))
    {
      if token.None? {
        return Unhandled(NO_CREDENTIALS);
      }
      var secretSet := SecretConfigured(secret);
      if secretSet {
        match o.hs256 {
          case Decoded(p) =>
            if "sub" in p {
              return Authenticated(p);
            }
          case JwtError(_) =>
          case OtherError(m) =>
            return Reject(FAILED_PREFIX + m);
        }
      }
      match o.header {
        case JwtError(m) =>
          return Reject(INVALID_PREFIX + m);
        case OtherError(m) =>
          return Reject(FAILED_PREFIX + m);
        case Decoded(h) =>
          var fetched := GetJwks(o.keysEndpoint);
          if fetched.KeysUnavailable? {
            return Reject(FAILED_PREFIX + fetched.message);
          }
          var ks := fetched.keys;
          var found := FindKey(ks, h.kid);
          match found {
            case KidMissing =>
              return Reject(FAILED_PREFIX + KID_KEY_ERROR);
            case NotFound =>
              var inner := if secretSet then NO_METHOD else NO_KEY_NO_SECRET;
              return Reject(FAILED_PREFIX + HttpExceptionText(UNAUTHORIZED, inner));
            case Found(i) =>
              var d := o.rs256(ks[i]);
              if !d.Decoded? {
                return Folded(d);
              }
              if "sub" !in d.value {
                return Reject(INVALID_PAYLOAD);
              }
              return Authenticated(d.value);
          }
      }
    }

    /** `get_current_user_optional`. */
    method GetCurrentUserOptional(credentials: Option<string>, secret: Option<string>, o: Oracles)
      returns (r: Option<Claims>)
      modifies this`jwksCache
      ensures (jwksCache, r) == VerifyOptional(credentials, secret, o, old(jwksCache))
    {
      if credentials.None? || credentials.value == "" {
        return None;
      }
      var out := GetCurrentUser(credentials, secret, o);
      r := if out.Authenticated? then Some(out.claims) else None;
    }
  }
}
