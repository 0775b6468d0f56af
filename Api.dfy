/** The HTTP layer: two client instances (one per backend), the request
    interceptor that attaches the bearer token, the response interceptor
    that ends the session on a 401, and the endpoint methods, whose paths
    are built by plain concatenation. */
module Api {
  import opened Js
  import opened Storage
  import AuthContext

  datatype Instance = ClTechApi | AutoTaskApi
  datatype Verb = Get | Post

  /** One request as the endpoint methods issue it. */
  datatype Call = Call(instance: Instance, verb: Verb, path: string, body: Option<Record>)

  const AuthorizationHeader: string := "Authorization"
  const BearerPrefix: string := "Bearer "

  /** The request interceptor's rule: a truthy stored token is sent as
      `Bearer <token>`; otherwise the headers go out as they were. */
  function WithBearer(headers: map<string, string>, items: map<string, string>): (h: map<string, string>)
    ensures Truthy(Lookup(items, AuthTokenKey)) ==>
      h.Keys == headers.Keys + {AuthorizationHeader} && h[AuthorizationHeader] == BearerPrefix + items[AuthTokenKey]
    ensures forall k :: k != AuthorizationHeader ==> Lookup(h, k) == Lookup(headers, k)
    ensures !Truthy(Lookup(items, AuthTokenKey)) ==> h == headers
  {
    if Truthy(Lookup(items, AuthTokenKey)) then headers[AuthorizationHeader := BearerPrefix + items[AuthTokenKey]]
    else headers
  }

  /** The token a server reads back from an `Authorization` value. */
  function BearerToken(value: string): Option<string> {
    StripPrefix(BearerPrefix, value)
  }

  /** The header carries exactly the stored token. */
  lemma BearerCarriesToken(headers: map<string, string>, items: map<string, string>)
    requires Truthy(Lookup(items, AuthTokenKey))
    ensures BearerToken(WithBearer(headers, items)[AuthorizationHeader]) == Some(items[AuthTokenKey])
  {
    var v := BearerPrefix + items[AuthTokenKey];
    assert v[..|BearerPrefix|] == BearerPrefix && v[|BearerPrefix|..] == items[AuthTokenKey];
  }

  /** After a logout or a 401 no request carries a token. */
  lemma NoBearerWithoutSession(headers: map<string, string>, items: map<string, string>)
    ensures WithBearer(headers, WithoutSession(items)) == headers
  {
  }

  /** After a login every request carries the demo token. */
  lemma BearerAfterLogin(headers: map<string, string>, items: map<string, string>, backend: string)
    ensures BearerToken(WithBearer(headers, AuthContext.LoginItems(items, backend))[AuthorizationHeader])
      == Some(AuthContext.DemoToken)
  {
    BearerCarriesToken(headers, AuthContext.LoginItems(items, backend));
  }

  /** An axios request config; the interceptor edits its headers in place. */
  class RequestConfig {
    var headers: map<string, string>

    constructor (headers: map<string, string>)
      ensures this.headers == headers
    {
      this.headers := headers;
    }
  }

  /** The request interceptor installed on both instances. */
  method RequestInterceptor(config: RequestConfig, storage: LocalStorage) returns (r: RequestConfig)
    modifies config
    ensures r == config
    ensures config.headers == WithBearer(old(config.headers), storage.items)
  {
    var token := storage.GetItem(AuthTokenKey);
    if Truthy(token) {
      config.headers := config.headers[AuthorizationHeader := BearerPrefix + token.value];
    }
    r := config;
  }

  datatype Response = Response(status: int, data: Record)

  /** An axios error: `response` is absent when no response arrived. */
  datatype HttpError = HttpError(response: Option<Response>)

  /** How a request settled. */
  datatype Settled = Fulfilled(response: Response) | Rejected(error: HttpError)

  /** `error.response?.status === 401`. */
  predicate IsUnauthorized(e: HttpError) {
    e.response.Some? && e.response.value.status == 401
  }

  /** `window.location`, reduced to the target it was last sent to. */
  class Location {
    var href: string

    constructor (href: string)
      ensures this.href == href
    {
      this.href := href;
    }
  }

  /** The response interceptor installed on both instances: successes pass
      through; every error is rejected again, and a 401 first clears both
      session keys and sends the page to the entry view. */
  method ResponseInterceptor(settled: Settled, storage: LocalStorage, location: Location) returns (r: Settled)
    modifies storage, location
    ensures r == settled
    ensures settled.Rejected? && IsUnauthorized(settled.error) ==>
      storage.items == WithoutSession(old(storage.items)) && location.href == "/"
    ensures !(settled.Rejected? && IsUnauthorized(settled.error)) ==>
      storage.items == old(storage.items) && location.href == old(location.href)
  {
    if settled.Rejected? && IsUnauthorized(settled.error) {
      storage.RemoveItem(AuthTokenKey);
      storage.RemoveItem(BackendKey);
      location.href := "/";
    }
    r := settled;
  }

  /** The `auth` group both backends share. */
  datatype AuthOp = Login(credentials: Record) | Register(userData: Record) | Profile | Logout

  datatype ClTechOp =
    | ClTechAuth(auth: AuthOp)
    | AdminList | AdminCreate(admin: Record) | AdminUpgradeRequest(request: Record)
    | ElectionsList | ElectionsStart(country: string, election: Record) | ElectionsResults(country: string)
    | SystemStatus | SystemInitialize | SystemTheories | SystemSimulations
    | VaultAccess | VaultDocuments

  datatype StrategyAction = Run | Stop | Stats

  datatype AutoTaskOp =
    | AutoTaskAuth(auth: AuthOp)
    | StrategiesList | StrategiesCreate(strategy: Record) | StrategyCall(id: string, action: StrategyAction)
    | WalletBalance | WalletTransactions | WalletWithdraw(withdrawal: Record) | WalletDeposit(deposit: Record)
    | AnalyticsOverview | AnalyticsEarnings(period: string)

  function AuthCall(instance: Instance, op: AuthOp): (c: Call)
    ensures c.instance == instance
  {
    match op
    case Login(credentials) => Call(instance, Post, "/auth/login", Some(credentials))
    case Register(userData) => Call(instance, Post, "/auth/register", Some(userData))
    case Profile => Call(instance, Get, "/auth/profile", None)
    case Logout => Call(instance, Post, "/auth/logout", None)
  }

  function StrategySuffix(action: StrategyAction): string {
    match action
    case Run => "/run"
    case Stop => "/stop"
    case Stats => "/stats"
  }

  /** `/strategies/${id}/run`, `/stop` and `/stats`. */
  function StrategyPath(id: string, action: StrategyAction): string {
    "/strategies/" + id + StrategySuffix(action)
  }

  datatype ElectionAction = StartElection | Results

  function ElectionSuffix(action: ElectionAction): string {
    match action
    case StartElection => "/start-election"
    case Results => "/results"
  }

  /** `/elections/countries/${country}/start-election` and `/results`. */
  function ElectionPath(country: string, action: ElectionAction): string {
    "/elections/countries/" + country + ElectionSuffix(action)
  }

  const EarningsPrefix: string := "/analytics/earnings?period="

  /** `clTech.*`: every method goes through the CL Tech instance. */
  function ClTechCall(op: ClTechOp): (c: Call)
    ensures c.instance == ClTechApi
  {
    match op
    case ClTechAuth(auth) => AuthCall(ClTechApi, auth)
    case AdminList => Call(ClTechApi, Get, "/admins", None)
    case AdminCreate(admin) => Call(ClTechApi, Post, "/admins", Some(admin))
    case AdminUpgradeRequest(request) => Call(ClTechApi, Post, "/upgrade-requests", Some(request))
    case ElectionsList => Call(ClTechApi, Get, "/elections/countries", None)
    case ElectionsStart(country, election) => Call(ClTechApi, Post, ElectionPath(country, StartElection), Some(election))
    case ElectionsResults(country) => Call(ClTechApi, Get, ElectionPath(country, Results), None)
    case SystemStatus => Call(ClTechApi, Get, "/system/status", None)
    case SystemInitialize => Call(ClTechApi, Post, "/system/initialize", None)
    case SystemTheories => Call(ClTechApi, Get, "/system/theories", None)
    case SystemSimulations => Call(ClTechApi, Get, "/system/simulations", None)
    case VaultAccess => Call(ClTechApi, Get, "/vault/access", None)
    case VaultDocuments => Call(ClTechApi, Get, "/vault/documents", None)
  }

  /** `autoTask.*`: every method goes through the AutoTask instance. */
  function AutoTaskCall(op: AutoTaskOp): (c: Call)
    ensures c.instance == AutoTaskApi
  {
    match op
    case AutoTaskAuth(auth) => AuthCall(AutoTaskApi, auth)
    case StrategiesList => Call(AutoTaskApi, Get, "/strategies", None)
    case StrategiesCreate(strategy) => Call(AutoTaskApi, Post, "/strategies", Some(strategy))
    case StrategyCall(id, action) => Call(AutoTaskApi, if action == Stats then Get else Post, StrategyPath(id, action), None)
    case WalletBalance => Call(AutoTaskApi, Get, "/wallet/balance", None)
    case WalletTransactions => Call(AutoTaskApi, Get, "/wallet/transactions", None)
    case WalletWithdraw(withdrawal) => Call(AutoTaskApi, Post, "/wallet/withdraw", Some(withdrawal))
    case WalletDeposit(deposit) => Call(AutoTaskApi, Post, "/wallet/deposit", Some(deposit))
    case AnalyticsOverview => Call(AutoTaskApi, Get, "/analytics/overview", None)
    case AnalyticsEarnings(period) => Call(AutoTaskApi, Get, EarningsPrefix + period, None)
  }

  /** The rest of `s` after `prefix`, if `s` starts with it. */
  function StripPrefix(prefix: string, s: string): Option<string> {
    if |prefix| <= |s| && s[..|prefix|] == prefix then Some(s[|prefix|..]) else None
  }

  /** `s` without `suffix`, if `s` ends with it. */
  function StripSuffix(suffix: string, s: string): Option<string> {
    if |suffix| <= |s| && s[|s| - |suffix|..] == suffix then Some(s[..|s| - |suffix|]) else None
  }

  lemma StripTemplate(prefix: string, x: string, suffix: string)
    ensures StripPrefix(prefix, prefix + x + suffix) == Some(x + suffix)
    ensures StripSuffix(suffix, x + suffix) == Some(x)
  {
    var s := prefix + x + suffix;
    assert s[..|prefix|] == prefix && s[|prefix|..] == x + suffix;
    var t := x + suffix;
    assert t[|t| - |suffix|..] == suffix && t[..|t| - |suffix|] == x;
  }

  /** A string that ends in a character other than the suffix's last one
      does not end with that suffix. */
  lemma NotSuffix(suffix: string, s: string)
    requires suffix != "" && s != "" && s[|s| - 1] != suffix[|suffix| - 1]
    ensures StripSuffix(suffix, s) == None
  {
    if |suffix| <= |s| {
      assert s[|s| - |suffix|..][|suffix| - 1] == s[|s| - 1];
    }
  }

  /** Reads the id and the action back out of a strategy path. */
  function ParseStrategyPath(path: string): Option<(string, StrategyAction)> {
    match StripPrefix("/strategies/", path)
    case None => None
    case Some(rest) =>
      if StripSuffix("/run", rest).Some? then Some((StripSuffix("/run", rest).value, Run))
      else if StripSuffix("/stop", rest).Some? then Some((StripSuffix("/stop", rest).value, Stop))
      else if StripSuffix("/stats", rest).Some? then Some((StripSuffix("/stats", rest).value, Stats))
      else None
  }

  /** Strategy path strings lose nothing: the id (whatever characters it
      holds, unencoded) and the action can be read back from the string, so
      no two strategy calls build the same path string. */
  lemma StrategyPathRoundTrip(id: string, action: StrategyAction)
    ensures ParseStrategyPath(StrategyPath(id, action)) == Some((id, action))
  {
    var suffix := StrategySuffix(action);
    StripTemplate("/strategies/", id, suffix);
    var rest := id + suffix;
    assert rest[|rest| - 1] == suffix[|suffix| - 1];
    if action != Run {
      NotSuffix("/run", rest);
    }
    if action == Stats {
      NotSuffix("/stop", rest);
    }
  }

  /** Reads the country and the action back out of an election path. */
  function ParseElectionPath(path: string): Option<(string, ElectionAction)> {
    match StripPrefix("/elections/countries/", path)
    case None => None
    case Some(rest) =>
      if StripSuffix("/start-election", rest).Some? then Some((StripSuffix("/start-election", rest).value, StartElection))
      else if StripSuffix("/results", rest).Some? then Some((StripSuffix("/results", rest).value, Results))
      else None
  }

  lemma ElectionPathRoundTrip(country: string, action: ElectionAction)
    ensures ParseElectionPath(ElectionPath(country, action)) == Some((country, action))
  {
    var suffix := ElectionSuffix(action);
    StripTemplate("/elections/countries/", country, suffix);
    var rest := country + suffix;
    assert rest[|rest| - 1] == suffix[|suffix| - 1];
    if action == Results {
      NotSuffix("/start-election", rest);
    }
  }

  /** The earnings path is the earnings prefix followed by the period,
      unencoded. */
  lemma EarningsPathRoundTrip(period: string)
    ensures StripPrefix(EarningsPrefix, AutoTaskCall(AnalyticsEarnings(period)).path) == Some(period)
  {
    StripTemplate(EarningsPrefix, period, "");
    assert EarningsPrefix + period + "" == EarningsPrefix + period;
  }
}
