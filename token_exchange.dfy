/**
 * The token exchange against the identity provider: an on-behalf-of exchange for tokens that
 * carry a person, a client-credentials grant for the others, both behind a token cache in the
 * key-value store, with up to three calls to the token endpoint per request.
 */
module TokenExchange {
  import opened Wrappers
  import opened Http
  import opened Errors
  import opened KeyValue
  import opened Telemetry

  /**
   * A JSON web token as the proxy uses it: its encoded form, the names of its claims and the
   * instant its `exp` claim names, in milliseconds since the epoch.
   */
  datatype Jwt = Jwt(encoded: string, claimNames: set<string>, expiresAtMs: int)

  /** The `access_token` of a token-endpoint answer, as the proxy reads it. */
  datatype TokenField =
    /** The body is no JSON object, or has no `access_token` member. */
    | Missing
    /** The member is there, but its text is no JSON web token. */
    | NotAJwt(text: string)
    | Token(jwt: Jwt)

  /** An answer of the token endpoint: its status and what its body holds. */
  datatype IdpReply = IdpReply(status: nat, accessToken: TokenField)

  /** The times a call of the handler sees: the wall clock and what each cache command takes. */
  datatype Clock = Clock(nowMs: int, cacheFetchMillis: int, cacheStoreMillis: int)

  const NAV_IDENT := "NAVident"
  const MAX_RETRIES: int := 3
  /** Seconds cut from a token's remaining life before it is cached, and the least life worth caching. */
  const CACHE_MARGIN_SECONDS: int := 3
  const FORM_CONTENT_TYPE := "application/x-www-form-urlencoded"
  const JWT_BEARER := "urn:ietf:params:oauth:grant-type:jwt-bearer"
  const CLIENT_CREDENTIALS := "client_credentials"
  const ON_BEHALF_OF := "on_behalf_of"
  const DEFAULT_ACCESS := "defaultaccess"
  const DEFAULT_SCOPE := ".default"
  const OBO := "obo"
  const M2M := "m2m"
  /** The claims request sent with every on-behalf-of exchange, with its layout. */
  const CLAIMS := "{\n                        \"access_token\": {\n                            \"groups\": {\n                                \"essential\": true\n                            },\n                            \"roles\": {\n                                \"essential\": true\n                            }\n                         }\n                    }"

  /** A token on behalf of a person carries the NAVident claim; a machine token does not. */
  predicate IsOboToken(jwt: Jwt) {
    NAV_IDENT in jwt.claimNames
  }

  /** The cache key of an on-behalf-of token: the target alias followed by the incoming token. */
  function OboKey(targetAlias: string, jwtIn: Jwt): string {
    targetAlias + jwtIn.encoded
  }

  /** Two incoming tokens for the same target share a cache entry only when they are the same token. */
  lemma OboKeySeparatesTokens(targetAlias: string, a: Jwt, b: Jwt)
    ensures OboKey(targetAlias, a) == OboKey(targetAlias, b) <==> a.encoded == b.encoded
  {
    if OboKey(targetAlias, a) == OboKey(targetAlias, b) {
      assert a.encoded == OboKey(targetAlias, a)[|targetAlias|..];
      assert b.encoded == OboKey(targetAlias, b)[|targetAlias|..];
    }
  }

  /** The scope of a client-credentials grant: "defaultaccess" stands for ".default". */
  function ServiceScope(scope: string): string {
    if scope == DEFAULT_ACCESS then DEFAULT_SCOPE else scope
  }

  /** The scope requested for an app: the app's own identifier URI with the scope name after it. */
  function ApiScope(targetAlias: string, scope: string): string {
    "api://" + targetAlias + "/" + scope
  }

  function TokenRequest(endpoint: string, fields: seq<(string, string)>): Request {
    Request(POST, endpoint, [("Content-Type", FORM_CONTENT_TYPE)], Form(fields))
  }

  /** The on-behalf-of exchange of an incoming token, fields in the order they are sent; `claims` is the claims document. */
  function OboRequest(endpoint: string, clientId: string, clientSecret: string, jwtIn: Jwt,
                      targetAlias: string, scope: string, claims: string): Request {
    TokenRequest(endpoint, [
      ("grant_type", JWT_BEARER),
      ("assertion", jwtIn.encoded),
      ("client_id", clientId),
      ("scope", ApiScope(targetAlias, scope)),
      ("client_secret", clientSecret),
      ("requested_token_use", ON_BEHALF_OF),
      ("claims", claims)])
  }

  /** The client-credentials grant for a target. */
  function ServiceRequest(endpoint: string, clientId: string, clientSecret: string,
                          targetAlias: string, scope: string): Request {
    TokenRequest(endpoint, [
      ("client_id", clientId),
      ("scope", ApiScope(targetAlias, ServiceScope(scope))),
      ("client_secret", clientSecret),
      ("grant_type", CLIENT_CREDENTIALS)])
  }

  /**
   * The two grants: the on-behalf-of grant is a jwt-bearer assertion of the incoming token with
   * the scope as given; the client-credentials grant asks for ".default" where the rules say
   * "defaultaccess", and for any other scope as it is. Both are forms posted to the endpoint.
   */
  lemma GrantFields(endpoint: string, clientId: string, clientSecret: string, jwtIn: Jwt,
                    targetAlias: string, scope: string, claims: string)
    ensures var obo := OboRequest(endpoint, clientId, clientSecret, jwtIn, targetAlias, scope, claims);
            && obo.verb == POST && obo.url == endpoint && obo.headers == [("Content-Type", FORM_CONTENT_TYPE)]
            && obo.body.Form? && |obo.body.fields| == 7
            && obo.body.fields[0] == ("grant_type", "urn:ietf:params:oauth:grant-type:jwt-bearer")
            && obo.body.fields[1] == ("assertion", jwtIn.encoded)
            && obo.body.fields[3] == ("scope", "api://" + targetAlias + "/" + scope)
            && obo.body.fields[5] == ("requested_token_use", "on_behalf_of")
    ensures var m2m := ServiceRequest(endpoint, clientId, clientSecret, targetAlias, scope);
            && m2m.verb == POST && m2m.url == endpoint && m2m.headers == [("Content-Type", FORM_CONTENT_TYPE)]
            && m2m.body.Form? && |m2m.body.fields| == 4
            && m2m.body.fields[1] == ("scope", "api://" + targetAlias + "/" + (if scope == "defaultaccess" then ".default" else scope))
            && m2m.body.fields[3] == ("grant_type", "client_credentials")
  {
  }

  /** n copies of x. */
  function Repeat<T>(x: T, n: nat): (r: seq<T>)
    ensures |r| == n
    ensures forall i :: 0 <= i < n ==> r[i] == x
  {
    if n == 0 then [] else Repeat(x, n - 1) + [x]
  }

  /** An answer worth another try: a gateway timeout, or an exception instead of an answer. */
  predicate Retryable(o: Outcome<IdpReply>) {
    o.Threw? || o.response.status == GATEWAY_TIMEOUT
  }

  /** The exception of the latest of the first n calls that threw, if any did. */
  function LastThrown(script: seq<Outcome<IdpReply>>, start: nat, n: nat): Option<Exception> {
    if n == 0 then None
    else match OutcomeAt(script, start + n - 1)
      case Threw(e) => Some(e)
      case Responded(_) => LastThrown(script, start, n - 1)
  }

  /**
   * clientCallWithRetries from the given attempt on, for a client whose next answers are
   * `script[start..]`: the result and the number of calls made in all.
   */
  function Retry(script: seq<Outcome<IdpReply>>, start: nat, attempt: nat, maxRetries: int,
                 last: Option<Exception>): (Result<IdpReply, Error>, nat)
    decreases maxRetries - attempt
  {
    if attempt >= maxRetries then
      (Failure(if last.Some? then Thrown(last.value) else RetriesExhausted(maxRetries)), attempt)
    else match OutcomeAt(script, start + attempt)
      case Responded(reply) =>
        if reply.status == GATEWAY_TIMEOUT then Retry(script, start, attempt + 1, maxRetries, last)
        else (Success(reply), attempt + 1)
      case Threw(e) => Retry(script, start, attempt + 1, maxRetries, Some(e))
  }

  lemma {:induction false} RetryFrom(script: seq<Outcome<IdpReply>>, start: nat, attempt: nat, maxRetries: int,
                                     last: Option<Exception>)
    requires attempt <= maxRetries || attempt == 0
    requires last == LastThrown(script, start, attempt)
    requires forall i :: start <= i < start + attempt ==> Retryable(OutcomeAt(script, i))
    ensures var (res, calls) := Retry(script, start, attempt, maxRetries, last);
            && attempt <= calls
            && (maxRetries >= 0 ==> calls <= maxRetries)
            && (res.Success? <==> exists i :: start <= i < start + maxRetries && !Retryable(OutcomeAt(script, i)))
            && (res.Success? ==> (1 <= calls
                  && OutcomeAt(script, start + calls - 1) == Responded(res.value)
                  && res.value.status != GATEWAY_TIMEOUT
                  && (forall i :: start <= i < start + calls - 1 ==> Retryable(OutcomeAt(script, i)))))
            && (res.Failure? ==> (calls == (if maxRetries < 0 then 0 else maxRetries)
                  && res.error == (if LastThrown(script, start, calls).Some?
                                   then Thrown(LastThrown(script, start, calls).value)
                                   else RetriesExhausted(maxRetries))))
    decreases maxRetries - attempt
  {
    if attempt < maxRetries {
      var o := OutcomeAt(script, start + attempt);
      if Retryable(o) {
        var next := if o.Threw? then Some(o.exception) else last;
        assert next == LastThrown(script, start, attempt + 1);
        RetryFrom(script, start, attempt + 1, maxRetries, next);
      }
    }
  }

  /**
   * clientCallWithRetries makes at most `maxRetries` calls and returns the first answer that is
   * no gateway timeout, after only timeouts and exceptions; when every call timed out or threw,
   * it fails with the exception of the latest call that threw, and with "failed after N
   * attempts" when none threw.
   */
  lemma RetryMeaning(script: seq<Outcome<IdpReply>>, start: nat, maxRetries: int)
    ensures var (res, calls) := Retry(script, start, 0, maxRetries, None);
            && (maxRetries >= 0 ==> calls <= maxRetries)
            && (res.Success? <==> exists i :: start <= i < start + maxRetries && !Retryable(OutcomeAt(script, i)))
            && (res.Success? ==> (1 <= calls
                  && OutcomeAt(script, start + calls - 1) == Responded(res.value)
                  && res.value.status != GATEWAY_TIMEOUT
                  && (forall i :: start <= i < start + calls - 1 ==> Retryable(OutcomeAt(script, i)))))
            && (res.Failure? ==> (calls == (if maxRetries < 0 then 0 else maxRetries)
                  && res.error == (if LastThrown(script, start, calls).Some?
                                   then Thrown(LastThrown(script, start, calls).value)
                                   else RetriesExhausted(maxRetries))))
  {
    RetryFrom(script, start, 0, maxRetries, None);
  }

  /**
   * extractAccessToken: the token of the answer, whatever its status; an answer without one
   * fails authentication. A text that is no token fails when it is decoded.
   */
  function Extracted(field: TokenField, alias: string, tokenType: string): (r: Result<Jwt, Error>)
    ensures r.Success? <==> field.Token?
    ensures r.Success? ==> r.value == field.jwt
    ensures field.Missing? ==> r == Failure(AccessTokenMissing(alias, tokenType))
  {
    match field
    case Missing => Failure(AccessTokenMissing(alias, tokenType))
    case NotAJwt(text) => Failure(MalformedToken(text))
    case Token(jwt) => Success(jwt)
  }

  /**
   * The time to live a fresh token is cached with: its remaining whole seconds at `nowMs`, less
   * the margin. `Duration.getSeconds` rounds toward negative infinity, as `/` does here.
   */
  function CacheTtl(jwt: Jwt, nowMs: int): int {
    (jwt.expiresAtMs - nowMs) / 1000 - CACHE_MARGIN_SECONDS
  }

  /** A token is cached only when it stays in the cache for more than the margin. */
  predicate WorthCaching(jwt: Jwt, nowMs: int) {
    CacheTtl(jwt, nowMs) > CACHE_MARGIN_SECONDS
  }

  /**
   * A cached token leaves the cache before it expires: an entry stored at `nowMs` is gone at
   * every instant from three seconds before the token's expiry on.
   */
  lemma CachedTokenExpiresFirst(entries: map<string, Entry>, key: string, jwt: Jwt, nowMs: int, laterMs: int)
    requires WorthCaching(jwt, nowMs)
    requires jwt.expiresAtMs - CACHE_MARGIN_SECONDS * 1000 <= laterMs
    ensures Visible(Stored(entries, key, CacheTtl(jwt, nowMs), jwt.encoded, nowMs), key, laterMs) == None
  {
    var q := (jwt.expiresAtMs - nowMs) / 1000;
    assert q * 1000 <= jwt.expiresAtMs - nowMs;
    StoredThenVisible(entries, key, CacheTtl(jwt, nowMs), jwt.encoded, nowMs, laterMs);
  }

  /** ... and it is there until then, up to the rounding of the remaining life to whole seconds. */
  lemma CachedTokenServed(entries: map<string, Entry>, key: string, jwt: Jwt, nowMs: int, laterMs: int)
    requires WorthCaching(jwt, nowMs)
    requires laterMs < jwt.expiresAtMs - (CACHE_MARGIN_SECONDS + 1) * 1000
    ensures Visible(Stored(entries, key, CacheTtl(jwt, nowMs), jwt.encoded, nowMs), key, laterMs) == Some(jwt.encoded)
  {
    var q := (jwt.expiresAtMs - nowMs) / 1000;
    assert jwt.expiresAtMs - nowMs < q * 1000 + 1000;
    StoredThenVisible(entries, key, CacheTtl(jwt, nowMs), jwt.encoded, nowMs, laterMs);
  }

  /** The token a fetch from the endpoint ends with, the script's answers from `start` on. */
  function Fetched(script: seq<Outcome<IdpReply>>, start: nat, alias: string, tokenType: string): Result<Jwt, Error> {
    var res := Retry(script, start, 0, MAX_RETRIES, None).0;
    if res.Failure? then Failure(res.error) else Extracted(res.value.accessToken, alias, tokenType)
  }

  /** The number of calls a fetch makes from `start` on. */
  function FetchCalls(script: seq<Outcome<IdpReply>>, start: nat): nat {
    Retry(script, start, 0, MAX_RETRIES, None).1
  }

  /** A fetch calls the endpoint once, twice or three times. */
  lemma FetchCallsBounds(script: seq<Outcome<IdpReply>>, start: nat)
    ensures 1 <= FetchCalls(script, start) <= MAX_RETRIES
  {
    RetryMeaning(script, start, MAX_RETRIES);
  }

  /**
   * What the token handler's world holds at one moment: the requests sent to the endpoint, the
   * commands sent to the cache and its entries, the failed-fetch counter and the two
   * cache-timing summaries.
   */
  datatype TokenState = TokenState(sent: seq<Request>, issued: seq<Command>, entries: map<string, Entry>,
                                   fetchFail: map<(string, string), nat>, fetchTime: seq<int>, storeTime: seq<int>)

  /**
   * The token handler: its credentials, the token endpoint, whether the cache is on, and the
   * cache, the endpoint's client and the metrics it works on.
   */
  class TokenExchangeHandler {
    const clientId: string
    const clientSecret: string
    const tokenEndpoint: string
    const useCache: bool
    const cache: Store
    const idp: ScriptedClient<Request, IdpReply>
    const metrics: Metrics
    /** The claims document of every on-behalf-of grant; the constructor sets it to CLAIMS. */
    const claims: string

    constructor (clientId: string, clientSecret: string, tokenEndpoint: string, useCache: bool,
                 cache: Store, idp: ScriptedClient<Request, IdpReply>, metrics: Metrics)
      ensures this.clientId == clientId && this.clientSecret == clientSecret
      ensures this.tokenEndpoint == tokenEndpoint && this.useCache == useCache
      ensures this.cache == cache && this.idp == idp && this.metrics == metrics
      ensures claims == CLAIMS
    {
      this.clientId := clientId;
      this.clientSecret := clientSecret;
      this.tokenEndpoint := tokenEndpoint;
      this.useCache := useCache;
      this.cache := cache;
      this.idp := idp;
      this.metrics := metrics;
      claims := CLAIMS;
    }

    /**
     * clientCallWithRetries: sends the request until an answer other than a gateway timeout
     * comes back, at most `maxRetries` times.
     */
    method ClientCallWithRetries(request: Request, maxRetries: int) returns (r: Result<IdpReply, Error>)
      modifies idp
      ensures var (res, calls) := Retry(idp.script, |old(idp.sent)|, 0, maxRetries, None);
              r == res && idp.sent == old(idp.sent) + Repeat(request, calls)
    {
      ghost var start := |idp.sent|;
      var attempt := 0;
      var lastException: Option<Exception> := None;
      while attempt < maxRetries
        invariant attempt <= maxRetries || attempt == 0
        invariant idp.sent == old(idp.sent) + Repeat(request, attempt)
        invariant Retry(idp.script, start, attempt, maxRetries, lastException)
                  == Retry(idp.script, start, 0, maxRetries, None)
        decreases maxRetries - attempt
      {
        var o := idp.Call(request);
        attempt := attempt + 1;
        match o
        case Responded(reply) =>
          if reply.status != GATEWAY_TIMEOUT {
            return Success(reply);
          }
        case Threw(e) =>
          lastException := Some(e);
      }
      r := Failure(if lastException.Some? then Thrown(lastException.value) else RetriesExhausted(maxRetries));
    }

    /**
     * extractAccessToken: the token the answer carries; an answer without one counts a failed
     * token fetch for the alias and token type, and fails.
     */
    method ExtractAccessToken(reply: IdpReply, alias: string, tokenType: string) returns (r: Result<Jwt, Error>)
      modifies metrics
      ensures r == Extracted(reply.accessToken, alias, tokenType)
      ensures metrics.Counted() == if reply.accessToken.Missing?
                                   then old(metrics.Counted()).(tokenFetchFail := Bump(old(metrics.tokenFetchFail), (alias, tokenType)))
                                   else old(metrics.Counted())
      ensures metrics.Timed() == old(metrics.Timed())
    {
      match reply.accessToken
      case Missing =>
        metrics.TokenFetchFailInc(alias, tokenType);
        r := Failure(AccessTokenMissing(alias, tokenType));
      case NotAJwt(text) =>
        r := Failure(MalformedToken(text));
      case Token(jwt) =>
        r := Success(jwt);
    }

    /** The cache lookup both grants start with, timed into the fetch-time summary when it answers. */
    method LookupCache(key: string, clock: Clock) returns (r: Result<Option<string>, Error>)
      requires metrics.Valid()
      modifies cache, metrics
      ensures metrics.Valid()
      ensures cache.issued == old(cache.issued) + [GetCommand(key)] && cache.entries == old(cache.entries)
      ensures r == if cache.reachable then Success(Visible(cache.entries, key, clock.nowMs)) else Failure(Thrown(UNREACHABLE))
      ensures metrics.cacheFetchTime == if cache.reachable then old(metrics.cacheFetchTime) + [clock.cacheFetchMillis]
                                        else old(metrics.cacheFetchTime)
      ensures metrics.cacheStoreTime == old(metrics.cacheStoreTime)
      ensures metrics.Counted() == old(metrics.Counted())
    {
      var got := cache.Get(key, clock.nowMs);
      if got.Failure? {
        return Failure(Thrown(got.error));
      }
      metrics.FetchTimeObserve(clock.cacheFetchMillis);
      r := Success(got.value);
    }

    /**
     * updateRedisCache: stores the fresh token under the key for its remaining life less the
     * margin, when that is more than the margin, and times the store; otherwise stores nothing.
     */
    method UpdateCache(jwt: Jwt, key: string, clock: Clock) returns (r: Result<(), Error>)
      requires metrics.Valid()
      modifies cache, metrics
      ensures metrics.Valid()
      ensures var store := WorthCaching(jwt, clock.nowMs);
              && cache.issued == old(cache.issued)
                   + (if store then [SetExCommand(key, CacheTtl(jwt, clock.nowMs), jwt.encoded)] else [])
              && cache.entries == (if store && cache.reachable
                                   then Stored(old(cache.entries), key, CacheTtl(jwt, clock.nowMs), jwt.encoded, clock.nowMs)
                                   else old(cache.entries))
              && r == (if store && !cache.reachable then Failure(Thrown(UNREACHABLE)) else Success(()))
              && metrics.cacheStoreTime == if store && cache.reachable then old(metrics.cacheStoreTime) + [clock.cacheStoreMillis]
                                           else old(metrics.cacheStoreTime)
      ensures metrics.cacheFetchTime == old(metrics.cacheFetchTime)
      ensures metrics.Counted() == old(metrics.Counted())
    {
      var secondsToLiveInCache := CacheTtl(jwt, clock.nowMs);
      if secondsToLiveInCache > CACHE_MARGIN_SECONDS {
        var stored := cache.SetEx(key, secondsToLiveInCache, jwt.encoded, clock.nowMs);
        if stored.Failure? {
          return Failure(Thrown(stored.error));
        }
        metrics.StoreTimeObserve(clock.cacheStoreMillis);
      }
      r := Success(());
    }

    /** What the endpoint client, the cache and the token metrics hold now. */
    function State(): TokenState
      reads idp, cache, metrics
    {
      TokenState(idp.sent, cache.issued, cache.entries, metrics.tokenFetchFail, metrics.cacheFetchTime, metrics.cacheStoreTime)
    }

    /**
     * What obtaining a token for `key` does from state `s`: with the cache on, a GET first,
     * whose answer, when there is one, is the token and ends the work; otherwise the grant
     * `request` is fetched from the endpoint as Fetching says. An unreachable cache fails the
     * call where it is met.
     */
    function Obtaining(s: TokenState, request: Request, alias: string, tokenType: string, key: string, clock: Clock)
      : (Result<string, Error>, TokenState)
    {
      if !useCache then Fetching(s, request, alias, tokenType, key, clock)
      else
        var looked := s.(issued := s.issued + [GetCommand(key)]);
        if !cache.reachable then (Failure(Thrown(UNREACHABLE)), looked)
        else
          var timed := looked.(fetchTime := s.fetchTime + [clock.cacheFetchMillis]);
          var cached := Visible(s.entries, key, clock.nowMs);
          if cached.Some? then (Success(cached.value), timed)
          else Fetching(timed, request, alias, tokenType, key, clock)
    }

    /**
     * The fetch after a cache miss: the grant goes to the endpoint up to three times; an answer
     * without an access token is counted; a fresh token is the result and, with the cache on,
     * is stored for its remaining life less the margin when that exceeds the margin, the store
     * being timed.
     */
    function Fetching(s: TokenState, request: Request, alias: string, tokenType: string, key: string, clock: Clock)
      : (Result<string, Error>, TokenState)
    {
      var (res, calls) := Retry(idp.script, |s.sent|, 0, MAX_RETRIES, None);
      var called := s.(sent := s.sent + Repeat(request, calls));
      if res.Failure? then (Failure(res.error), called)
      else
        var missing := res.value.accessToken.Missing?;
        var counted := called.(fetchFail := if missing then Bump(s.fetchFail, (alias, tokenType)) else s.fetchFail);
        var jwt := Extracted(res.value.accessToken, alias, tokenType);
        if jwt.Failure? then (Failure(jwt.error), counted)
        else if !useCache || !WorthCaching(jwt.value, clock.nowMs) then (Success(jwt.value.encoded), counted)
        else
          var ttl := CacheTtl(jwt.value, clock.nowMs);
          var issued := counted.(issued := s.issued + [SetExCommand(key, ttl, jwt.value.encoded)]);
          if !cache.reachable then (Failure(Thrown(UNREACHABLE)), issued)
          else (Success(jwt.value.encoded),
                issued.(entries := Stored(s.entries, key, ttl, jwt.value.encoded, clock.nowMs),
                        storeTime := s.storeTime + [clock.cacheStoreMillis]))
    }

    /** The protocol exchange and acquireServiceToken share, for a given grant and cache key. */
    method Obtain(request: Request, alias: string, tokenType: string, key: string, clock: Clock)
      returns (r: Result<string, Error>)
      requires metrics.Valid()
      modifies cache, idp, metrics
      ensures metrics.Valid()
      ensures (r, State()) == Obtaining(old(State()), request, alias, tokenType, key, clock)
      ensures metrics.Counted() == old(metrics.Counted()).(tokenFetchFail := metrics.tokenFetchFail)
    {
      if useCache {
        var got := LookupCache(key, clock);
        if got.Failure? {
          return Failure(got.error);
        }
        if got.value.Some? {
          return Success(got.value.value);
        }
      }
      r := Fetch(request, alias, tokenType, key, clock);
    }

    /** The part of Obtain after a cache miss. */
    method Fetch(request: Request, alias: string, tokenType: string, key: string, clock: Clock)
      returns (r: Result<string, Error>)
      requires metrics.Valid()
      modifies cache, idp, metrics
      ensures metrics.Valid()
      ensures (r, State()) == Fetching(old(State()), request, alias, tokenType, key, clock)
      ensures metrics.Counted() == old(metrics.Counted()).(tokenFetchFail := metrics.tokenFetchFail)
    {
      ghost var s := State();
      var res := ClientCallWithRetries(request, MAX_RETRIES);
      if res.Failure? {
        return Failure(res.error);
      }
      var jwt := ExtractAccessToken(res.value, alias, tokenType);
      if jwt.Failure? {
        return Failure(jwt.error);
      }
      if useCache {
        var stored := UpdateCache(jwt.value, key, clock);
        if stored.Failure? {
          return Failure(stored.error);
        }
      }
      r := Success(jwt.value.encoded);
      ghost var f := Fetching(s, request, alias, tokenType, key, clock);
      assert State().issued == f.1.issued;
      assert State().entries == f.1.entries;
    }

    /** What acquireServiceToken does: the client-credentials grant, cached under the target alias. */
    function AcquiringServiceToken(s: TokenState, targetAlias: string, scope: string, clock: Clock)
      : (Result<string, Error>, TokenState)
    {
      Obtaining(s, ServiceRequest(tokenEndpoint, clientId, clientSecret, targetAlias, scope), targetAlias, M2M, targetAlias, clock)
    }

    method AcquireServiceToken(targetAlias: string, scope: string, clock: Clock) returns (r: Result<string, Error>)
      requires metrics.Valid()
      modifies cache, idp, metrics
      ensures metrics.Valid()
      ensures (r, State()) == AcquiringServiceToken(old(State()), targetAlias, scope, clock)
      ensures metrics.Counted() == old(metrics.Counted()).(tokenFetchFail := metrics.tokenFetchFail)
    {
      var request := ServiceRequest(tokenEndpoint, clientId, clientSecret, targetAlias, scope);
      r := Obtain(request, targetAlias, M2M, targetAlias, clock);
    }

    /**
     * What exchange does: a token on behalf of a person is exchanged for one to the target,
     * cached under the alias and the incoming token; any other token is answered with the
     * proxy's own service token for the target.
     */
    function Exchanging(s: TokenState, jwtIn: Jwt, targetAlias: string, scope: string, clock: Clock)
      : (Result<string, Error>, TokenState)
    {
      if IsOboToken(jwtIn) then
        Obtaining(s, OboRequest(tokenEndpoint, clientId, clientSecret, jwtIn, targetAlias, scope, claims),
                  targetAlias, OBO, OboKey(targetAlias, jwtIn), clock)
      else AcquiringServiceToken(s, targetAlias, scope, clock)
    }

    method Exchange(jwtIn: Jwt, targetAlias: string, scope: string, clock: Clock) returns (r: Result<string, Error>)
      requires metrics.Valid()
      modifies cache, idp, metrics
      ensures metrics.Valid()
      ensures (r, State()) == Exchanging(old(State()), jwtIn, targetAlias, scope, clock)
      ensures metrics.Counted() == old(metrics.Counted()).(tokenFetchFail := metrics.tokenFetchFail)
    {
      if !IsOboToken(jwtIn) {
        r := AcquireServiceToken(targetAlias, scope, clock);
        return;
      }
      var key := OboKey(targetAlias, jwtIn);
      var request := OboRequest(tokenEndpoint, clientId, clientSecret, jwtIn, targetAlias, scope, claims);
      r := Obtain(request, targetAlias, OBO, key, clock);
    }

    /**
     * A token found in the cache is the answer, and the endpoint is not called; nothing is
     * stored and no token failure is counted.
     */
    lemma CacheHitServed(s: TokenState, request: Request, alias: string, tokenType: string, key: string, clock: Clock)
      requires useCache && cache.reachable
      requires Visible(s.entries, key, clock.nowMs).Some?
      ensures var (r, after) := Obtaining(s, request, alias, tokenType, key, clock);
              && r == Success(Visible(s.entries, key, clock.nowMs).value)
              && after.sent == s.sent && after.entries == s.entries && after.fetchFail == s.fetchFail
              && after.issued == s.issued + [GetCommand(key)]
    {
    }

    /**
     * Obtaining a token sends only the grant, at most three times, and sends it at least once
     * exactly when the cache does not settle the call: the cache is off, or reachable and
     * without a live entry for the key.
     */
    lemma EndpointCalls(s: TokenState, request: Request, alias: string, tokenType: string, key: string, clock: Clock)
      ensures var after := Obtaining(s, request, alias, tokenType, key, clock).1;
              && |s.sent| <= |after.sent| <= |s.sent| + MAX_RETRIES
              && after.sent[..|s.sent|] == s.sent
              && (forall i :: |s.sent| <= i < |after.sent| ==> after.sent[i] == request)
              && (|after.sent| > |s.sent| <==>
                    !useCache || (cache.reachable && Visible(s.entries, key, clock.nowMs).None?))
    {
      FetchCallsBounds(idp.script, |s.sent|);
      var after := Obtaining(s, request, alias, tokenType, key, clock).1;
      var n := FetchCalls(idp.script, |s.sent|);
      if !useCache || (cache.reachable && Visible(s.entries, key, clock.nowMs).None?) {
        assert after.sent == s.sent + Repeat(request, n);
      }
    }

    /**
     * A token fetched after a miss, with the cache on and reachable, is the answer and is
     * stored so that it is served until four seconds before it expires, and is gone three
     * seconds before.
     */
    lemma FreshTokenCached(s: TokenState, request: Request, alias: string, tokenType: string, key: string, clock: Clock,
                           laterMs: int)
      requires useCache && cache.reachable
      requires Visible(s.entries, key, clock.nowMs).None?
      requires Fetched(idp.script, |s.sent|, alias, tokenType).Success?
      requires WorthCaching(Fetched(idp.script, |s.sent|, alias, tokenType).value, clock.nowMs)
      ensures var jwt := Fetched(idp.script, |s.sent|, alias, tokenType).value;
              var (r, after) := Obtaining(s, request, alias, tokenType, key, clock);
              && r == Success(jwt.encoded)
              && (laterMs < jwt.expiresAtMs - (CACHE_MARGIN_SECONDS + 1) * 1000 ==>
                    Visible(after.entries, key, laterMs) == Some(jwt.encoded))
              && (jwt.expiresAtMs - CACHE_MARGIN_SECONDS * 1000 <= laterMs ==>
                    Visible(after.entries, key, laterMs) == None)
    {
      var jwt := Fetched(idp.script, |s.sent|, alias, tokenType).value;
      var after := Obtaining(s, request, alias, tokenType, key, clock).1;
      assert after.entries == Stored(s.entries, key, CacheTtl(jwt, clock.nowMs), jwt.encoded, clock.nowMs);
      if laterMs < jwt.expiresAtMs - (CACHE_MARGIN_SECONDS + 1) * 1000 {
        CachedTokenServed(s.entries, key, jwt, clock.nowMs, laterMs);
      }
      if jwt.expiresAtMs - CACHE_MARGIN_SECONDS * 1000 <= laterMs {
        CachedTokenExpiresFirst(s.entries, key, jwt, clock.nowMs, laterMs);
      }
    }

    /**
     * Only an answer without an access token is counted as a failed fetch: the counter of the
     * alias and token type rises by one exactly then, and no other counter moves.
     */
    lemma MissingTokenCounted(s: TokenState, request: Request, alias: string, tokenType: string, key: string, clock: Clock)
      ensures var after := Obtaining(s, request, alias, tokenType, key, clock);
              var start := |s.sent|;
              var res := Retry(idp.script, start, 0, MAX_RETRIES, None).0;
              var missing := (!useCache || (cache.reachable && Visible(s.entries, key, clock.nowMs).None?))
                             && res.Success? && res.value.accessToken.Missing?;
              && after.1.fetchFail == (if missing then Bump(s.fetchFail, (alias, tokenType)) else s.fetchFail)
              && (missing ==> after.0 == Failure(AccessTokenMissing(alias, tokenType)))
    {
    }

    /**
     * The service token does not depend on the caller: two incoming tokens that are not on
     * behalf of a person are exchanged alike.
     */
    lemma ServiceTokenIgnoresCaller(s: TokenState, a: Jwt, b: Jwt, targetAlias: string, scope: string, clock: Clock)
      requires !IsOboToken(a) && !IsOboToken(b)
      ensures Exchanging(s, a, targetAlias, scope, clock) == Exchanging(s, b, targetAlias, scope, clock)
    {
    }

    /**
     * Tokens on behalf of different people never share a cache entry: each exchange reads and
     * writes only the key of its own incoming token.
     */
    lemma OboTokensKeptApart(s: TokenState, jwtIn: Jwt, targetAlias: string, scope: string, clock: Clock)
      requires IsOboToken(jwtIn)
      ensures var after := Exchanging(s, jwtIn, targetAlias, scope, clock).1;
              && (forall k :: k != OboKey(targetAlias, jwtIn) && k in s.entries ==> k in after.entries && after.entries[k] == s.entries[k])
              && (forall k :: k != OboKey(targetAlias, jwtIn) ==> (k in after.entries <==> k in s.entries))
    {
    }

    /**
     * A fetched token is the answer whether or not it is cached; one that would stay in the cache
     * no longer than the margin, or any token while the cache is off, is not stored, and the cache
     * then sees no command beyond the lookup.
     */
    lemma FreshTokenReturned(s: TokenState, request: Request, alias: string, tokenType: string, key: string, clock: Clock)
      requires !useCache || (cache.reachable && Visible(s.entries, key, clock.nowMs).None?)
      requires Fetched(idp.script, |s.sent|, alias, tokenType).Success?
      requires !useCache || !WorthCaching(Fetched(idp.script, |s.sent|, alias, tokenType).value, clock.nowMs)
      ensures var jwt := Fetched(idp.script, |s.sent|, alias, tokenType).value;
              var (r, after) := Obtaining(s, request, alias, tokenType, key, clock);
              && r == Success(jwt.encoded)
              && after.entries == s.entries
              && after.storeTime == s.storeTime
              && after.issued == (if useCache then s.issued + [GetCommand(key)] else s.issued)
    {
    }

    /**
     * What exchange sends: only the grant of the token's flow reaches the endpoint, and the cache
     * is asked under the alias followed by the incoming token for a token on behalf of a person,
     * under the alias alone for any other.
     */
    lemma ExchangeSendsGrant(s: TokenState, jwtIn: Jwt, targetAlias: string, scope: string, clock: Clock)
      ensures var after := Exchanging(s, jwtIn, targetAlias, scope, clock).1;
              var grant := if IsOboToken(jwtIn)
                           then OboRequest(tokenEndpoint, clientId, clientSecret, jwtIn, targetAlias, scope, claims)
                           else ServiceRequest(tokenEndpoint, clientId, clientSecret, targetAlias, scope);
              var key := if IsOboToken(jwtIn) then targetAlias + jwtIn.encoded else targetAlias;
              && |s.sent| <= |after.sent|
              && after.sent[..|s.sent|] == s.sent
              && (forall i :: |s.sent| <= i < |after.sent| ==> after.sent[i] == grant)
              && (useCache ==> |s.issued| < |after.issued| && after.issued[|s.issued|] == GetCommand(key))
    {
      if IsOboToken(jwtIn) {
        EndpointCalls(s, OboRequest(tokenEndpoint, clientId, clientSecret, jwtIn, targetAlias, scope, claims),
                      targetAlias, OBO, OboKey(targetAlias, jwtIn), clock);
      } else {
        EndpointCalls(s, ServiceRequest(tokenEndpoint, clientId, clientSecret, targetAlias, scope),
                      targetAlias, M2M, targetAlias, clock);
      }
    }
  }
}
