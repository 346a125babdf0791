/**
 * The dashboard's request handling: which handler a GET path selects, the
 * date parameters it reads, the health payload, the stand-in client used when
 * the ads client cannot be imported, and the handlers' exception fallback.
 */
module Dashboard {
  import opened Wrappers
  import opened Credentials
  import opened AdsMetrics
  import opened Campaigns
  import opened AdsClient

  // ---------------------------------------------------------------- routing

  datatype Route = DashboardPage | PerformanceApi | CampaignsApi | HealthApi | NotFound

  /** The path component of a request target: everything before the first `?` or `#`. */
  function PathOf(url: string): (p: string)
    ensures p <= url
    ensures '?' !in p && '#' !in p
    ensures p == url || url[|p|] == '?' || url[|p|] == '#'
  {
    if url == "" || url[0] == '?' || url[0] == '#' then ""
    else [url[0]] + PathOf(url[1..])
  }

  /** The `do_GET` cascade on the parsed path: it agrees with the route table on every path. */
  function RouteOf(path: string): (r: Route)
    ensures r == Lookup(RouteTable, path)
  {
    if path == "/" || path == "/ads-dashboard" then DashboardPage
    else if path == "/api/google-ads/performance" then PerformanceApi
    else if path == "/api/google-ads/campaigns" then CampaignsApi
    else if path == "/api/health" then HealthApi
    else NotFound
  }

  /** The route a request target selects; a target without query or fragment is its own path. */
  function Dispatch(url: string): (r: Route)
    ensures '?' !in url && '#' !in url ==> r == RouteOf(url)
  {
    RouteOf(PathOf(url))
  }

  /** The route table written as data, in the cascade's order. */
  const RouteTable: seq<(string, Route)> :=
    [("/", DashboardPage), ("/ads-dashboard", DashboardPage),
     ("/api/google-ads/performance", PerformanceApi),
     ("/api/google-ads/campaigns", CampaignsApi),
     ("/api/health", HealthApi)]

  /** First table entry for `path`, NotFound when there is none. */
  function Lookup(table: seq<(string, Route)>, path: string): (r: Route)
    ensures r == NotFound <==> (forall i :: 0 <= i < |table| ==> table[i].0 != path || table[i].1 == NotFound)
    ensures r != NotFound ==>
      exists i :: 0 <= i < |table| && table[i] == (path, r)
        && forall j :: 0 <= j < i ==> table[j].0 != path || table[j].1 == NotFound
  {
    if table == [] then NotFound
    else if table[0].0 == path && table[0].1 != NotFound then table[0].1
    else Lookup(table[1..], path)
  }

  /** Both page paths, and only they, serve the dashboard page. */
  lemma DashboardPaths(path: string)
    ensures RouteOf(path) == DashboardPage <==> path == "/" || path == "/ads-dashboard"
    ensures RouteOf(path) == NotFound <==> (forall i :: 0 <= i < |RouteTable| ==> RouteTable[i].0 != path)
  {
  }

  /** A query string never changes the route. */
  lemma {:induction false} QueryNeverChangesRoute(path: string, query: string)
    requires '?' !in path && '#' !in path
    ensures Dispatch(path + "?" + query) == RouteOf(path)
  {
    PathOfStopsAtQuery(path, query);
  }

  lemma {:induction false} PathOfStopsAtQuery(path: string, query: string)
    requires '?' !in path && '#' !in path
    ensures PathOf(path + "?" + query) == path
  {
    if path == "" {
      assert path + "?" + query == "?" + query;
    } else {
      assert path[0] in path;
      assert (path + "?" + query)[1..] == path[1..] + "?" + query;
      assert forall c :: c in path[1..] ==> c in path;
      PathOfStopsAtQuery(path[1..], query);
    }
  }

  /** The HTTP status: 404 for unknown paths, 200 for every handler. */
  function StatusOf(r: Route): (status: int)
    ensures status == 404 <==> r == NotFound
    ensures status != 404 ==> status == 200
  {
    if r == NotFound then 404 else 200
  }

  // ---------------------------------------------------------------- query parameters

  /** The result of `parse_qs`: every present key has at least one value (dates as day numbers). */
  type QueryParams = q: map<string, seq<int>> | forall k :: k in q ==> |q[k]| > 0 witness map[]

  /** `query_params.get(key, [None])[0]`. */
  function FirstValue(q: QueryParams, key: string): (r: Option<int>)
    ensures r.None? <==> key !in q
    ensures r.Some? ==> r.value == q[key][0]
  {
    if key in q then Some(q[key][0]) else None
  }

  /** The dates a handler passes on, and the range the client then queries. */
  lemma RequestedRange(q: QueryParams, today: int)
    ensures var range := EffectiveRange(FirstValue(q, "start_date"), FirstValue(q, "end_date"), today);
      (("start_date" in q && "end_date" in q) ==> range == DateRange(q["start_date"][0], q["end_date"][0]))
      && (("start_date" !in q || "end_date" !in q) ==> range.end == today - 1 && Days(range) == 31)
  {
  }

  // ---------------------------------------------------------------- the stand-in client

  /** The client used when the ads client module cannot be imported. */
  class DummyClient {
    const hasCredentials: bool := false
    const mocks: MockTables

    constructor (mocks: MockTables)
      ensures this.mocks == mocks
    {
      this.mocks := mocks;
    }

    /** The dashboard's mock dictionary, whatever the dates. */
    method GetPerformanceData(start: Option<int>, end: Option<int>)
      returns (r: Reply<Performance, map<string, MetricRecord>>)
      ensures r == Fallback(mocks.performance)
    {
      r := Fallback(mocks.performance);
    }

    /** The dashboard's mock campaign list, whatever the dates. */
    method GetCampaignsData(start: Option<int>, end: Option<int>)
      returns (r: Reply<seq<Campaign>, seq<CampaignRecord>>)
      ensures r == Fallback(mocks.campaigns)
    {
      r := Fallback(mocks.campaigns);
    }
  }

  /** The note on the dashboard module's own mock records. */
  const FallbackNote := "FALLBACK MOCK DATA - Failed to load Google Ads client"

  /** The process-wide `ads_client`: the real client, or the stand-in. */
  datatype Backend = Real(client: GoogleAdsClient) | Dummy(dummy: DummyClient)

  /**
   * The dashboard module's start-up: its own mock tables, noted FallbackNote, and
   * the ads client module's client when that module imports, the stand-in over
   * the dashboard's tables when it does not. The two modules never share a table.
   */
  method StartDashboard(importSucceeds: bool, credentials: CredentialSet, sdkLoads: bool)
    returns (backend: Backend, fallback: MockTables)
    ensures fresh(fallback) && fresh(fallback.performance.Values)
    ensures fresh(set i | 0 <= i < |fallback.campaigns| :: fallback.campaigns[i])
    ensures fallback.performance.Keys == MockPoints.Keys
    ensures forall k :: k in fallback.performance ==>
              fallback.performance[k].point == MockPoints[k] && fallback.performance[k].note == FallbackNote
    ensures |fallback.campaigns| == |MockCampaigns|
    ensures forall i :: 0 <= i < |fallback.campaigns| ==>
              fallback.campaigns[i].campaign == MockCampaigns[i] && fallback.campaigns[i].note == FallbackNote
    ensures backend.Real? <==> importSucceeds
    ensures backend.Real? ==>
      var client := backend.client;
      && fresh(client) && fresh(client.mocks)
      && fresh(client.mocks.performance.Values)
      && fresh(set i | 0 <= i < |client.mocks.campaigns| :: client.mocks.campaigns[i])
      && client.credentials == credentials
      && (client.connected <==> CredentialGate(credentials) != "" && sdkLoads)
      && client.mocks.performance.Keys == MockPoints.Keys
      && (forall k :: k in client.mocks.performance ==>
            client.mocks.performance[k].point == MockPoints[k] && client.mocks.performance[k].note == MockNote)
      && |client.mocks.campaigns| == |MockCampaigns|
      && (forall i :: 0 <= i < |client.mocks.campaigns| ==>
            client.mocks.campaigns[i].campaign == MockCampaigns[i] && client.mocks.campaigns[i].note == MockNote)
      && (forall k :: k in client.mocks.performance ==> client.mocks.performance[k] !in fallback.performance.Values)
      && (forall i, j :: 0 <= i < |client.mocks.campaigns| && 0 <= j < |fallback.campaigns| ==>
            client.mocks.campaigns[i] != fallback.campaigns[j])
    ensures backend.Dummy? ==> backend.dummy.mocks == fallback && !backend.dummy.hasCredentials
  {
    fallback := new MockTables(FallbackNote);
    if importSucceeds {
      var client := LoadClientModule(credentials, sdkLoads);
      backend := Real(client);
    } else {
      var dummy := new DummyClient(fallback);
      backend := Dummy(dummy);
    }
  }

  // ---------------------------------------------------------------- handlers

  datatype Response<D> = Response(status: int, body: D)

  /** The handlers' `try`/`except`: the call's data, or the module's mock data; 200 either way. */
  function Respond<D>(call: Result<D>, fallback: D): (r: Response<D>)
    ensures r.status == 200
    ensures call.Success? ==> r.body == call.value
    ensures call.Failure? ==> r.body == fallback
  {
    match call
    case Success(data) => Response(200, data)
    case Failure(_) => Response(200, fallback)
  }

  /**
   * `serve_performance_data`. Neither client lets an exception escape its getter,
   * so the call always succeeds and the `except` arm of Respond is not taken.
   */
  method ServePerformanceData(backend: Backend, query: QueryParams, today: int,
                              search: (string, DateRange) -> Query<Metrics>, fallback: MockTables)
    returns (resp: Response<Reply<Performance, map<string, MetricRecord>>>)
    requires backend.Dummy? ==> backend.dummy.mocks == fallback
    modifies if backend.Real? then backend.client.mocks.performance.Values else {}
    ensures resp.status == 200
    ensures backend.Dummy? ==> resp.body == Fallback(fallback.performance)
    ensures backend.Real? ==>
      var client := backend.client;
      var table := client.mocks.performance;
      var range := EffectiveRange(FirstValue(query, "start_date"), FirstValue(query, "end_date"), today);
      if !client.IsLive() then resp.body == Fallback(table) && unchanged(table.Values)
      else match FetchPerformance(client.CustomerId(), range, search)
        case Success(p) => resp.body == Live(p) && unchanged(table.Values)
        case Failure(msg) =>
          && resp.body == Fallback(table)
          && (forall k :: k in table ==> table[k].note == ErrorNote(msg))
          && (forall k :: k in table ==> table[k].point == old(table[k].point))
  {
    var start, end := FirstValue(query, "start_date"), FirstValue(query, "end_date");
    var data;
    match backend {
      case Real(client) =>
        data := client.GetPerformanceData(start, end, today, search);
      case Dummy(dummy) =>
        data := dummy.GetPerformanceData(start, end);
    }
    resp := Respond(Success(data), Fallback(fallback.performance));
  }

  /** `serve_campaigns_data`, shaped like ServePerformanceData. */
  method ServeCampaignsData(backend: Backend, query: QueryParams, today: int,
                            search: (string, DateRange) -> Query<CampaignRow>, fallback: MockTables)
    returns (resp: Response<Reply<seq<Campaign>, seq<CampaignRecord>>>)
    requires backend.Dummy? ==> backend.dummy.mocks == fallback
    modifies if backend.Real? then set i | 0 <= i < |backend.client.mocks.campaigns| :: backend.client.mocks.campaigns[i] else {}
    ensures resp.status == 200
    ensures backend.Dummy? ==> resp.body == Fallback(fallback.campaigns)
    ensures backend.Real? ==>
      var client := backend.client;
      var list := client.mocks.campaigns;
      var range := EffectiveRange(FirstValue(query, "start_date"), FirstValue(query, "end_date"), today);
      if !client.IsLive() then resp.body == Fallback(list) && unchanged(set i | 0 <= i < |list| :: list[i])
      else match search(client.CustomerId(), range)
        case Rows(rows) =>
          && resp.body == (if rows == [] then Fallback(list) else Live(ConvertAll(KeepFirst(rows))))
          && unchanged(set i | 0 <= i < |list| :: list[i])
        case Raised(msg) =>
          && resp.body == Fallback(list)
          && (forall i :: 0 <= i < |list| ==> list[i].note == ErrorNote(msg))
          && (forall i :: 0 <= i < |list| ==> list[i].campaign == old(list[i].campaign))
  {
    var start, end := FirstValue(query, "start_date"), FirstValue(query, "end_date");
    var data;
    match backend {
      case Real(client) =>
        data := client.GetCampaignsData(start, end, today, search);
      case Dummy(dummy) =>
        data := dummy.GetCampaignsData(start, end);
    }
    resp := Respond(Success(data), Fallback(fallback.campaigns));
  }

  // ---------------------------------------------------------------- health

  /** A Python value that is either a boolean or a string. */
  datatype PyValue = PyBool(b: bool) | PyStr(s: string)

  predicate Truthy(v: PyValue)
  {
    match v
    case PyBool(b) => b
    case PyStr(s) => s != ""
  }

  /** The client attributes the health check probes with `hasattr`. */
  datatype ClientAttributes = ClientAttributes(
    hasCredentials: Option<PyValue>,
    clientId: Option<string>,
    loginCustomerId: Option<string>)

  function AttributesOf(b: Backend): ClientAttributes
  {
    match b
    case Real(client) =>
      ClientAttributes(Some(PyStr(client.HasCredentials())),
                       Some(client.credentials.clientId), Some(client.credentials.loginCustomerId))
    case Dummy(dummy) => ClientAttributes(Some(PyBool(dummy.hasCredentials)), None, None)
  }

  /** `client_id[:10] + '...'` when the attribute exists and is non-empty, else None. */
  function MaskedClientId(clientId: Option<string>): (r: Option<string>)
    ensures r.None? <==> clientId.None? || clientId.value == ""
    ensures r.Some? ==>
      var shown := if |clientId.value| < 10 then |clientId.value| else 10;
      |r.value| == shown + 3
      && r.value[..shown] == clientId.value[..shown]
      && r.value[shown..] == "..."
  {
    if clientId.Some? && clientId.value != "" then Some(Head(clientId.value, 10) + "...") else None
  }

  /** The `has_google_ads_credentials` field as written: the attribute's raw value. */
  function CredentialFlagAsWritten(attrs: ClientAttributes): (v: PyValue)
    ensures attrs.hasCredentials.None? ==> v == PyBool(false)
    ensures attrs.hasCredentials.Some? ==> v == attrs.hasCredentials.value
  {
    if attrs.hasCredentials.Some? then attrs.hasCredentials.value else PyBool(false)
  }

  /** As written, a fully configured client publishes its refresh token in the health payload. */
  lemma HealthLeaksRefreshToken(client: GoogleAdsClient)
    requires client.credentials.clientId != "" && client.credentials.clientSecret != ""
    requires client.credentials.developerToken != "" && client.credentials.loginCustomerId != ""
    requires client.credentials.refreshToken != ""
    ensures CredentialFlagAsWritten(AttributesOf(Real(client))) == PyStr(client.credentials.refreshToken)
  {
  }

  /** The health payload (without its timestamp and environment name). */
  datatype HealthInfo = HealthInfo(
    status: string,
    service: string,
    version: string,
    hasGoogleAdsCredentials: bool,
    googleAdsClientId: Option<string>,
    googleAdsCustomerId: Option<string>)

  /**
   * `serve_health_check` with the credential flag reduced to its truth value: true
   * exactly for the real client with all five credentials set.
   */
  function Health(b: Backend): (h: HealthInfo)
    ensures h.status == "ok" && h.service == "Allervie Analytics API" && h.version == "1.0.0"
    ensures h.hasGoogleAdsCredentials <==>
      b.Real? && b.client.credentials.clientId != "" && b.client.credentials.clientSecret != ""
      && b.client.credentials.developerToken != "" && b.client.credentials.loginCustomerId != ""
      && b.client.credentials.refreshToken != ""
    ensures h.googleAdsClientId == MaskedClientId(AttributesOf(b).clientId)
    ensures b.Real? ==> h.googleAdsCustomerId == Some(b.client.credentials.loginCustomerId)
    ensures b.Dummy? ==> h.googleAdsClientId.None? && h.googleAdsCustomerId.None?
  {
    var attrs := AttributesOf(b);
    HealthInfo("ok", "Allervie Analytics API", "1.0.0",
               Truthy(CredentialFlagAsWritten(attrs)),
               MaskedClientId(attrs.clientId),
               attrs.loginCustomerId)
  }
}
