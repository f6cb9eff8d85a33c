/** The access-token helper of application-gateway/token.js: it hands out a mock
    token when mocking is forced, reuses a cached token until its expiry, and
    otherwise fetches a fresh token from the Daraja OAuth endpoint, caching it for
    its lifetime less a minute but at least 30 seconds, and falling back to a mock
    token when the fetch fails. The clock and the outcome of the HTTP exchange are
    parameters. */
module AccessToken {
  import opened Wrappers
  import opened Js

  /** A token object: the `access_token` value, `expires_in` as a number (None is
      NaN) and whether it is a mock. */
  datatype TokenObj = TokenObj(accessToken: Json, expiresIn: Option<int>, mock: bool)

  const MockLifetime := 3600

  /** `mockToken()` at clock reading `now` (milliseconds since the epoch). */
  function MockToken(now: nat): (t: TokenObj)
    ensures t.mock && t.expiresIn == Some(3600)
    ensures t.accessToken == JStr("mock-demo-token-" + NatToString(now))
    ensures Truthy(Some(t.accessToken))
  {
    TokenObj(JStr("mock-demo-token-" + NatToString(now)), Some(MockLifetime), true)
  }

  /** Mock tokens made at different instants differ. */
  lemma MockTokensDiffer(now: nat, later: nat)
    requires now != later
    ensures MockToken(now) != MockToken(later)
  {
    NatToStringInjective(now, later);
    var p := "mock-demo-token-";
    assert (p + NatToString(now))[|p|..] == NatToString(now);
    assert (p + NatToString(later))[|p|..] == NatToString(later);
  }

  // ---- Configuration read from the environment at load time -------------------

  /** `process.env[name]` for an environment where every set variable has a string
      value; `a || b` on two such reads. */
  function EnvOr(env: map<string, string>, primary: string, fallback: string): (v: string)
    ensures primary in env && env[primary] != "" ==> v == env[primary]
    ensures (primary !in env || env[primary] == "") && fallback in env ==> v == env[fallback]
    ensures (primary !in env || env[primary] == "") && fallback !in env ==> v == ""
  {
    if primary in env && env[primary] != "" then env[primary]
    else if fallback in env then env[fallback]
    else ""
  }

  /** `(process.env[primary] || process.env[fallback] || '').trim()`. */
  function TrimmedEnvOr(env: map<string, string>, primary: string, fallback: string): (v: string)
    ensures v == Trim(EnvOr(env, primary, fallback))
    ensures Unpadded(v)
    ensures primary !in env && fallback !in env ==> v == ""
  {
    var raw := EnvOr(env, primary, fallback);
    assert primary !in env && fallback !in env ==> raw == "" && Trim(raw) == "";
    Trim(raw)
  }

  /** `MPESA_FORCE_MOCK === '1' || FORCE_MOCK === '1'`. */
  predicate ForceMockEnv(env: map<string, string>)
  {
    ("MPESA_FORCE_MOCK" in env && env["MPESA_FORCE_MOCK"] == "1") || ("FORCE_MOCK" in env && env["FORCE_MOCK"] == "1")
  }

  /** The module's constants: the trimmed key and secret and the force-mock switch. */
  datatype Config = Config(key: string, secret: string, forceMockEnv: bool)

  function LoadConfig(env: map<string, string>): (c: Config)
    ensures c.key == Trim(EnvOr(env, "MPESA_KEY", "MPESA_CONSUMER_KEY"))
    ensures c.secret == Trim(EnvOr(env, "MPESA_SECRET", "MPESA_CONSUMER_SECRET"))
    ensures Unpadded(c.key) && Unpadded(c.secret)
    ensures "MPESA_KEY" !in env && "MPESA_CONSUMER_KEY" !in env ==> c.key == ""
    ensures "MPESA_SECRET" !in env && "MPESA_CONSUMER_SECRET" !in env ==> c.secret == ""
    ensures c.forceMockEnv <==> ForceMockEnv(env)
  {
    var key := TrimmedEnvOr(env, "MPESA_KEY", "MPESA_CONSUMER_KEY");
    var secret := TrimmedEnvOr(env, "MPESA_SECRET", "MPESA_CONSUMER_SECRET");
    Config(key, secret, ForceMockEnv(env))
  }

  // ---- fetchDarajaToken --------------------------------------------------------

  /** What `resp.json()` yields: an object, or anything else (invalid JSON, or a
      JSON value that is not an object, on which every property read is
      `undefined` or throws). */
  datatype Body = JsonObject(fields: map<string, Json>) | NotAnObject

  /** The HTTP exchange: no answer at all (DNS, connection, timeout), or a status
      and a body. */
  datatype HttpOutcome = NetworkFailure | Reply(status: int, body: Body)

  datatype FetchError = MissingCredentials | Unreachable | BadResponse(status: int) | NoAccessToken

  /** `resp.ok`. */
  predicate IsOk(status: int)
  {
    200 <= status <= 299
  }

  /** `body.access_token || body.AccessToken || body.token`. */
  function AccessTokenField(fields: map<string, Json>): (v: Option<Json>)
    ensures Truthy(v) <==>
      Truthy(Get(fields, "access_token")) || Truthy(Get(fields, "AccessToken")) || Truthy(Get(fields, "token"))
    ensures Truthy(Get(fields, "access_token")) ==> v == Get(fields, "access_token")
    ensures !Truthy(Get(fields, "access_token")) && Truthy(Get(fields, "AccessToken")) ==> v == Get(fields, "AccessToken")
    ensures !Truthy(Get(fields, "access_token")) && !Truthy(Get(fields, "AccessToken")) ==> v == Get(fields, "token")
  {
    Or(Or(Get(fields, "access_token"), Get(fields, "AccessToken")), Get(fields, "token"))
  }

  /** `Number(body.expires_in || body.expiresIn || body.expires || 3600)`. */
  function ExpiresField(fields: map<string, Json>): Option<int>
  {
    ToNumber(Or(Or(Or(Get(fields, "expires_in"), Get(fields, "expiresIn")), Get(fields, "expires")), Some(JNum(3600))))
  }

  /** `fetchDarajaToken()` with the configured key and secret and the outcome of the
      request. */
  function FetchDarajaToken(key: string, secret: string, outcome: HttpOutcome): (r: Result<TokenObj, FetchError>)
    ensures r.Ok? <==>
      key != "" && secret != "" && outcome.Reply? && IsOk(outcome.status) &&
      outcome.body.JsonObject? && Truthy(AccessTokenField(outcome.body.fields))
    ensures key == "" || secret == "" ==> r == Err(MissingCredentials)
    ensures key != "" && secret != "" && outcome.Reply? && !IsOk(outcome.status) ==> r == Err(BadResponse(outcome.status))
    ensures r.Ok? ==> !r.value.mock && Some(r.value.accessToken) == AccessTokenField(outcome.body.fields)
    ensures r.Ok? ==> Truthy(Some(r.value.accessToken))
    ensures r.Ok? ==> r.value.expiresIn == ExpiresField(outcome.body.fields)
  {
    if key == "" || secret == "" then Err(MissingCredentials)
    else match outcome
      case NetworkFailure => Err(Unreachable)
      case Reply(status, body) =>
        if !IsOk(status) then Err(BadResponse(status))
        else match body
          case NotAnObject => Err(NoAccessToken)
          case JsonObject(fields) =>
            var accessToken := AccessTokenField(fields);
            if !Truthy(accessToken) then Err(NoAccessToken)
            else Ok(TokenObj(accessToken.value, ExpiresField(fields), false))
  }

  /** A body with a usable `expires_in` sets the lifetime; one with no truthy expiry
      field gets an hour. */
  lemma ExpiresFieldDefaults(fields: map<string, Json>)
    ensures (forall name :: name in ["expires_in", "expiresIn", "expires"] ==> !Truthy(Get(fields, name))) ==>
      ExpiresField(fields) == Some(3600)
    ensures "expires_in" in fields && fields["expires_in"].JNum? && fields["expires_in"].n != 0 ==>
      ExpiresField(fields) == Some(fields["expires_in"].n)
  {
    if forall name :: name in ["expires_in", "expiresIn", "expires"] ==> !Truthy(Get(fields, name)) {
      assert !Truthy(Get(fields, "expires_in")) && !Truthy(Get(fields, "expiresIn")) && !Truthy(Get(fields, "expires"));
    }
  }

  /** An expiry sent as the string form of an integer is read as that integer. */
  lemma ExpiresFieldOfString(fields: map<string, Json>, seconds: int)
    requires "expires_in" in fields && fields["expires_in"] == JStr(IntToString(seconds))
    ensures ExpiresField(fields) == Some(seconds)
  {
    NumberOfString(seconds);
    assert IntToString(seconds) != "";
  }

  // ---- getAccessToken ----------------------------------------------------------

  /** `Math.max(30, (Number(expires_in) || 3600) - 60)`: the number of seconds a
      fetched token stays cached. A NaN or zero lifetime counts as an hour. */
  function Ttl(expiresIn: Option<int>): (ttl: int)
    ensures ttl >= 30
    ensures expiresIn.Some? && expiresIn.value != 0 ==> ttl == if expiresIn.value - 60 >= 30 then expiresIn.value - 60 else 30
    ensures expiresIn.None? || expiresIn == Some(0) ==> ttl == 3540
  {
    var lifetime := match expiresIn case Some(n) => if n != 0 then n else 3600 case None => 3600;
    if lifetime - 60 >= 30 then lifetime - 60 else 30
  }

  /** `{ tokenObj, expiryMs }`. */
  datatype CacheEntry = CacheEntry(tokenObj: TokenObj, expiryMs: int)

  /** The module-level `cachedToken`. */
  class TokenCache {
    var cachedToken: Option<CacheEntry>

    /** Only fetched tokens are cached, so the cache never holds a mock. */
    ghost predicate Valid()
      reads this
    {
      cachedToken.Some? ==> !cachedToken.value.tokenObj.mock && Truthy(Some(cachedToken.value.tokenObj.accessToken))
    }

    constructor ()
      ensures cachedToken.None? && Valid()
    {
      cachedToken := None;
    }

    /** The cached token is still good at `now`. */
    predicate Live(now: int)
      reads this
    {
      cachedToken.Some? && now < cachedToken.value.expiryMs
    }

    /** `getAccessToken(options)` at clock reading `now`, where `outcome` is what the
        token request would receive if one were made. */
    method GetAccessToken(forceMock: bool, config: Config, now: nat, outcome: HttpOutcome) returns (t: TokenObj)
      requires Valid()
      modifies this
      ensures Valid()
      ensures t == Served(forceMock || config.forceMockEnv, old(cachedToken), config, now, outcome)
      ensures forceMock || config.forceMockEnv ==> t == MockToken(now) && cachedToken == old(cachedToken)
      ensures !(forceMock || config.forceMockEnv) && old(Live(now)) ==>
        t == old(cachedToken.value.tokenObj) && cachedToken == old(cachedToken)
      ensures !(forceMock || config.forceMockEnv) && !old(Live(now)) ==>
        match FetchDarajaToken(config.key, config.secret, outcome)
        case Ok(fetched) => t == fetched && cachedToken == Some(CacheEntry(fetched, now + Ttl(fetched.expiresIn) * 1000))
        case Err(_) => t == MockToken(now) && cachedToken == old(cachedToken)
    {
      if forceMock || config.forceMockEnv {
        return MockToken(now);
      }
      if cachedToken.Some? && now < cachedToken.value.expiryMs {
        return cachedToken.value.tokenObj;
      }
      var fetched := FetchDarajaToken(config.key, config.secret, outcome);
      match fetched {
        case Ok(tokenObj) =>
          var ttl := Ttl(tokenObj.expiresIn);
          cachedToken := Some(CacheEntry(tokenObj, now + ttl * 1000));
          t := tokenObj;
        case Err(_) =>
          t := MockToken(now);
      }
    }
  }

  /** What a call returns, as a function of the switch, the cache and the request
      outcome; the method above is proved to return it. */
  function Served(forced: bool, cache: Option<CacheEntry>, config: Config, now: nat, outcome: HttpOutcome): TokenObj
  {
    if forced then MockToken(now)
    else if cache.Some? && now < cache.value.expiryMs then cache.value.tokenObj
    else match FetchDarajaToken(config.key, config.secret, outcome)
      case Ok(fetched) => fetched
      case Err(_) => MockToken(now)
  }

  /** The caller gets a mock exactly when mocking is forced, or when there is no live
      cached token and the fetch fails; a live cache never yields a mock. */
  lemma MockOnlyWhenForcedOrFailed(forced: bool, cache: Option<CacheEntry>, config: Config, now: nat, outcome: HttpOutcome)
    requires cache.Some? ==> !cache.value.tokenObj.mock
    ensures Served(forced, cache, config, now, outcome).mock <==>
      forced || (!(cache.Some? && now < cache.value.expiryMs) && FetchDarajaToken(config.key, config.secret, outcome).Err?)
  {
  }

  /** A token fetched at `now` is served from the cache, without a request, at every
      instant before `now + 30 s`, whatever the request would then receive. */
  lemma FetchedTokenReused(config: Config, now: nat, outcome: HttpOutcome, later: nat, laterOutcome: HttpOutcome)
    requires FetchDarajaToken(config.key, config.secret, outcome).Ok?
    requires now <= later < now + 30000
    ensures var fetched := FetchDarajaToken(config.key, config.secret, outcome).value;
      Served(false, Some(CacheEntry(fetched, now + Ttl(fetched.expiresIn) * 1000)), config, later, laterOutcome) == fetched
  {
  }

  /** Without a key or secret nothing is fetched: every uncached call returns a mock. */
  lemma MissingCredentialsServeMock(config: Config, now: nat, outcome: HttpOutcome)
    requires config.key == "" || config.secret == ""
    ensures Served(false, None, config, now, outcome) == MockToken(now)
  {
  }
}
