/**
 * The ads client object and the module-level mock tables it falls back to.
 * The mock tables hold record objects: the fallback returns a shallow copy of
 * a table, so overwriting a note changes the shared record in place.
 */
module AdsClient {
  import opened Wrappers
  import opened Credentials
  import opened AdsMetrics
  import opened Campaigns

  /** The note on the client module's mock records. */
  const MockNote := "MOCK DATA - No API credentials found"

  /** The note written on every mock record when a query raised with message `msg`. */
  function ErrorNote(msg: string): string
  {
    "ERROR: " + msg
  }

  /** One entry of the mock performance dictionary: its point and its `note`. */
  class MetricRecord {
    var point: MetricPoint
    var note: string

    constructor (point: MetricPoint, note: string)
      ensures this.point == point && this.note == note
    {
      this.point := point;
      this.note := note;
    }
  }

  /** One entry of the mock campaign list: its fields and its `note`. */
  class CampaignRecord {
    var campaign: Campaign
    var note: string

    constructor (campaign: Campaign, note: string)
      ensures this.campaign == campaign && this.note == note
    {
      this.campaign := campaign;
      this.note := note;
    }
  }

  /** The points of the mock performance dictionary (currency and percent strings as numbers). */
  const MockPoints: map<string, MetricPoint> :=
    map["impressions" := MetricPoint(Count(125789), 8.5),
        "clicks" := MetricPoint(Count(5432), 12.3),
        "conversions" := MetricPoint(Count(321), 5.7),
        "cost" := MetricPoint(Money(4567.89), 7.8),
        "conversionRate" := MetricPoint(Rate(5.9), -2.1),
        "clickThroughRate" := MetricPoint(Rate(4.3), 3.5),
        "costPerConversion" := MetricPoint(Money(14.23), 2.1)]

  /** The three mock campaigns. */
  const MockCampaigns: seq<Campaign> :=
    [Campaign("Brand Awareness Campaign", "ENABLED", 1500.0, 45672, 2341, 895.72, 187, 5.1, 7.99, 4.79),
     Campaign("Product Promotion", "ENABLED", 2000.0, 62189, 1978, 1245.63, 98, 3.2, 4.95, 12.71),
     Campaign("Seasonal Sale", "ENABLED", 1200.0, 17928, 1113, 689.41, 36, 6.2, 3.23, 19.15)]

  /**
   * A module's two mock tables. The dictionary and the list themselves are never
   * rebound; only the records in them change.
   */
  class MockTables {
    const performance: map<string, MetricRecord>
    const campaigns: seq<CampaignRecord>

    /** Both tables filled with the fixed mock values, every record carrying `note`. */
    constructor (note: string)
      ensures performance.Keys == MockPoints.Keys
      ensures forall k :: k in performance ==> performance[k].point == MockPoints[k] && performance[k].note == note
      ensures |campaigns| == |MockCampaigns|
      ensures forall i :: 0 <= i < |campaigns| ==>
                campaigns[i].campaign == MockCampaigns[i] && campaigns[i].note == note
      ensures fresh(performance.Values) && fresh(set i | 0 <= i < |campaigns| :: campaigns[i])
    {
      var table := NewPerformanceTable(note);
      var list := NewCampaignTable(note);
      performance, campaigns := table, list;
    }

    /** The note loop over the performance dictionary: every note becomes `note`, nothing else changes. */
    method MarkPerformance(note: string)
      modifies performance.Values
      ensures forall k :: k in performance ==> performance[k].note == note
      ensures forall k :: k in performance ==> performance[k].point == old(performance[k].point)
    {
      var keys := performance.Keys;
      while keys != {}
        invariant keys <= performance.Keys
        invariant forall k :: k in performance && k !in keys ==> performance[k].note == note
        invariant forall k :: k in performance ==> performance[k].point == old(performance[k].point)
        decreases keys
      {
        var k :| k in keys;
        performance[k].note := note;
        keys := keys - {k};
      }
    }

    /** The note loop over the campaign list: every note becomes `note`, nothing else changes. */
    method MarkCampaigns(note: string)
      modifies set i | 0 <= i < |campaigns| :: campaigns[i]
      ensures forall i :: 0 <= i < |campaigns| ==> campaigns[i].note == note
      ensures forall i :: 0 <= i < |campaigns| ==> campaigns[i].campaign == old(campaigns[i].campaign)
    {
      for i := 0 to |campaigns|
        invariant forall j :: 0 <= j < i ==> campaigns[j].note == note
        invariant forall j :: 0 <= j < |campaigns| ==> campaigns[j].campaign == old(campaigns[j].campaign)
      {
        campaigns[i].note := note;
      }
    }
  }

  /** Fresh records for the mock performance dictionary, each carrying `note`. */
  method NewPerformanceTable(note: string) returns (t: map<string, MetricRecord>)
    ensures t.Keys == MockPoints.Keys
    ensures forall k :: k in t ==> t[k].point == MockPoints[k] && t[k].note == note
    ensures fresh(t.Values)
  {
    var impressions := new MetricRecord(MockPoints["impressions"], note);
    var clicks := new MetricRecord(MockPoints["clicks"], note);
    var conversions := new MetricRecord(MockPoints["conversions"], note);
    var cost := new MetricRecord(MockPoints["cost"], note);
    var conversionRate := new MetricRecord(MockPoints["conversionRate"], note);
    var clickThroughRate := new MetricRecord(MockPoints["clickThroughRate"], note);
    var costPerConversion := new MetricRecord(MockPoints["costPerConversion"], note);
    t := map["impressions" := impressions, "clicks" := clicks, "conversions" := conversions,
             "cost" := cost, "conversionRate" := conversionRate,
             "clickThroughRate" := clickThroughRate, "costPerConversion" := costPerConversion];
  }

  /** Fresh records for the mock campaign list, each carrying `note`. */
  method NewCampaignTable(note: string) returns (t: seq<CampaignRecord>)
    ensures |t| == |MockCampaigns|
    ensures forall i :: 0 <= i < |t| ==> t[i].campaign == MockCampaigns[i] && t[i].note == note
    ensures fresh(set i | 0 <= i < |t| :: t[i])
  {
    var brand := new CampaignRecord(MockCampaigns[0], note);
    var promotion := new CampaignRecord(MockCampaigns[1], note);
    var seasonal := new CampaignRecord(MockCampaigns[2], note);
    t := [brand, promotion, seasonal];
  }

  /** What a getter returns: a freshly computed payload, or (a copy of) a mock table. */
  datatype Reply<V, T> = Live(value: V) | Fallback(table: T)

  /** The ads client: credentials, whether the vendor client loaded, and the mock tables it falls back to. */
  class GoogleAdsClient {
    const credentials: CredentialSet
    /** `self.client is not None`. */
    const connected: bool
    const mocks: MockTables

    /**
     * `__init__`: the vendor client is loaded only when the credential gate is truthy,
     * and stays missing when loading fails (`sdkLoads` false).
     */
    constructor (credentials: CredentialSet, sdkLoads: bool, mocks: MockTables)
      ensures this.credentials == credentials && this.mocks == mocks
      ensures connected <==> CredentialGate(credentials) != "" && sdkLoads
    {
      this.credentials := credentials;
      this.mocks := mocks;
      this.connected := CredentialGate(credentials) != "" && sdkLoads;
    }

    /** The `has_credentials` attribute (a string, see CredentialGate). */
    function HasCredentials(): string
    {
      CredentialGate(credentials)
    }

    /** The getters query the vendor only with credentials and a loaded client. */
    predicate IsLive()
    {
      HasCredentials() != "" && connected
    }

    /** The customer id sent with every query: the login customer id without dashes. */
    function CustomerId(): string
    {
      StripDashes(credentials.loginCustomerId)
    }

    /**
     * `get_performance_data`. Without credentials or client: the mock dictionary,
     * untouched. Otherwise the report over the effective range and its previous
     * period, or, when a query raises, the mock dictionary with every note replaced
     * by the error.
     */
    method GetPerformanceData(start: Option<int>, end: Option<int>, today: int,
                              search: (string, DateRange) -> Query<Metrics>)
      returns (r: Reply<Performance, map<string, MetricRecord>>)
      modifies mocks.performance.Values
      ensures !IsLive() ==> r == Fallback(mocks.performance) && unchanged(mocks.performance.Values)
      ensures IsLive() ==>
        match FetchPerformance(CustomerId(), EffectiveRange(start, end, today), search)
        case Success(p) => r == Live(p) && unchanged(mocks.performance.Values)
        case Failure(msg) =>
          && r == Fallback(mocks.performance)
          && (forall k :: k in mocks.performance ==> mocks.performance[k].note == ErrorNote(msg))
          && (forall k :: k in mocks.performance ==> mocks.performance[k].point == old(mocks.performance[k].point))
    {
      if !IsLive() {
        return Fallback(mocks.performance);
      }
      var range := EffectiveRange(start, end, today);
      var customerId := CustomerId();
      var response := search(customerId, range);
      if response.Raised? {
        mocks.MarkPerformance(ErrorNote(response.message));
        return Fallback(mocks.performance);
      }
      var current := AggregateRows(response.rows);
      var previousResponse := search(customerId, PreviousPeriod(range));
      if previousResponse.Raised? {
        mocks.MarkPerformance(ErrorNote(previousResponse.message));
        return Fallback(mocks.performance);
      }
      var previous := AggregateRows(previousResponse.rows);
      r := Live(Report(current, previous));
    }

    /**
     * `get_campaigns_data`. Without credentials or client, or when no row comes back:
     * the mock list, untouched. Otherwise one campaign per id in first-seen order, or,
     * when the query raises, the mock list with every note replaced by the error.
     */
    method GetCampaignsData(start: Option<int>, end: Option<int>, today: int,
                            search: (string, DateRange) -> Query<CampaignRow>)
      returns (r: Reply<seq<Campaign>, seq<CampaignRecord>>)
      modifies set i | 0 <= i < |mocks.campaigns| :: mocks.campaigns[i]
      ensures !IsLive() ==> r == Fallback(mocks.campaigns) && unchanged(set i | 0 <= i < |mocks.campaigns| :: mocks.campaigns[i])
      ensures IsLive() ==>
        match search(CustomerId(), EffectiveRange(start, end, today))
        case Rows(rows) =>
          && r == (if rows == [] then Fallback(mocks.campaigns) else Live(ConvertAll(KeepFirst(rows))))
          && unchanged(set i | 0 <= i < |mocks.campaigns| :: mocks.campaigns[i])
        case Raised(msg) =>
          && r == Fallback(mocks.campaigns)
          && (forall i :: 0 <= i < |mocks.campaigns| ==> mocks.campaigns[i].note == ErrorNote(msg))
          && (forall i :: 0 <= i < |mocks.campaigns| ==> mocks.campaigns[i].campaign == old(mocks.campaigns[i].campaign))
    {
      if !IsLive() {
        return Fallback(mocks.campaigns);
      }
      var range := EffectiveRange(start, end, today);
      var response := search(CustomerId(), range);
      if response.Raised? {
        mocks.MarkCampaigns(ErrorNote(response.message));
        return Fallback(mocks.campaigns);
      }
      var campaigns := CollectCampaigns(response.rows);
      if campaigns == [] {
        KeepFirstShorter(response.rows);
        return Fallback(mocks.campaigns);
      }
      r := Live(campaigns);
    }
  }

  /**
   * Importing the client module: its mock tables, noted MockNote, and the
   * module-level client built over them.
   */
  method LoadClientModule(credentials: CredentialSet, sdkLoads: bool) returns (client: GoogleAdsClient)
    ensures fresh(client) && fresh(client.mocks)
    ensures fresh(client.mocks.performance.Values)
    ensures fresh(set i | 0 <= i < |client.mocks.campaigns| :: client.mocks.campaigns[i])
    ensures client.credentials == credentials
    ensures client.connected <==> CredentialGate(credentials) != "" && sdkLoads
    ensures client.mocks.performance.Keys == MockPoints.Keys
    ensures forall k :: k in client.mocks.performance ==>
              client.mocks.performance[k].point == MockPoints[k] && client.mocks.performance[k].note == MockNote
    ensures |client.mocks.campaigns| == |MockCampaigns|
    ensures forall i :: 0 <= i < |client.mocks.campaigns| ==>
              client.mocks.campaigns[i].campaign == MockCampaigns[i] && client.mocks.campaigns[i].note == MockNote
  {
    var mocks := new MockTables(MockNote);
    client := new GoogleAdsClient(credentials, sdkLoads, mocks);
  }
}
