/** The Google Ads adapter: connection from five credentials, campaign listing,
    the performance fold with micros converted to currency units and fractions
    to percentages, campaign creation with a paused campaign and a micros
    budget, and account lookup. Every remote search or mutation is an input:
    the rows it returned, or the exception it raised. */
module GoogleAds {
  import opened AdsCommon

  const DeveloperTokenVar := "GOOGLE_ADS_DEVELOPER_TOKEN"
  const ClientIdVar := "GOOGLE_ADS_CLIENT_ID"
  const ClientSecretVar := "GOOGLE_ADS_CLIENT_SECRET"
  const RefreshTokenVar := "GOOGLE_ADS_REFRESH_TOKEN"
  const CustomerIdVar := "GOOGLE_ADS_CUSTOMER_ID"

  /** The credentials checked before the client is loaded, in the order checked. */
  const RequiredVars: seq<string> :=
    [DeveloperTokenVar, ClientIdVar, ClientSecretVar, RefreshTokenVar, CustomerIdVar]

  const MicrosPerUnit: real := 1000000.0

  /** The daily budget assumed when `campaign_data` has none. */
  const DefaultDailyBudget: real := 1000.0

  /** The credential names that are unset or empty, in the order checked. */
  function MissingVars(env: map<string, string>): (missing: seq<string>)
    ensures missing == [] <==> forall v :: v in RequiredVars ==> IsSet(env, v)
    ensures forall v :: v in missing <==> v in RequiredVars && !IsSet(env, v)
    ensures IsSubsequence(missing, RequiredVars)
  {
    MissingNames(RequiredVars, name => IsSet(env, name))
  }

  /** One row of the campaign listing search. */
  datatype CampaignRow = CampaignRow(id: string, name: string, status: string, channelType: string,
                                     startDate: string, endDate: string)

  /** One row of the metrics search, in the API's own units: cost and average
      CPC in micros, CTR and conversion rate as fractions. */
  datatype MetricsRow = MetricsRow(campaignId: string, name: string, impressions: int, clicks: int,
                                   costMicros: int, conversions: real, ctr: real,
                                   averageCpcMicros: real, conversionRate: real)

  /** One campaign's metrics after normalisation: currency units and percentages. */
  datatype CampaignMetrics = CampaignMetrics(name: string, impressions: int, clicks: int, cost: real,
                                             conversions: real, ctr: real, averageCpc: real,
                                             conversionRate: real)

  /** The running totals of the performance fold. */
  datatype Totals = Totals(impressions: int, clicks: int, cost: real, conversions: real) {
    function Add(m: CampaignMetrics): Totals {
      Totals(impressions + m.impressions, clicks + m.clicks, cost + m.cost, conversions + m.conversions)
    }

    function Plus(t: Totals): Totals {
      Totals(impressions + t.impressions, clicks + t.clicks, cost + t.cost, conversions + t.conversions)
    }
  }

  const NoTotals := Totals(0, 0, 0.0, 0.0)

  /** What `get_campaign_performance` returns when it has data. */
  datatype PerformanceReport = PerformanceReport(campaigns: map<string, CampaignMetrics>,
                                                 summary: map<string, real>, dateRange: DateRange)

  /** The budget mutation sent before the campaign itself. */
  datatype BudgetRequest = BudgetRequest(name: string, amountMicros: int)

  /** The campaign mutation: a search campaign with manual CPC bidding, linked to the new budget. */
  datatype CampaignRequest = CampaignRequest(name: string, channelType: string, status: CampaignStatus,
                                             budgetResource: string, biddingStrategy: string)

  /** The mutations `create_campaign` sent, in order, and the id it returned. */
  datatype CreateOutcome = CreateOutcome(budgetRequest: Option<BudgetRequest>,
                                         campaignRequest: Option<CampaignRequest>,
                                         campaignId: Option<string>)

  /** One row of the customer search. */
  datatype CustomerRow = CustomerRow(id: string, descriptiveName: string, currencyCode: string,
                                     timeZone: string, status: string)

  function CampaignOf(row: CampaignRow): (c: Campaign)
    ensures c.Tag() == GoogleAds
  {
    GoogleCampaign(row.id, row.name, row.status, row.channelType, row.startDate, row.endDate)
  }

  /** The per-row unit conversion: micros back to currency units, fractions to percentages. */
  function Normalize(row: MetricsRow): (m: CampaignMetrics)
    ensures m.cost * MicrosPerUnit == row.costMicros as real
    ensures m.averageCpc * MicrosPerUnit == row.averageCpcMicros
    ensures m.ctr / 100.0 == row.ctr && m.conversionRate / 100.0 == row.conversionRate
    ensures m.name == row.name && m.impressions == row.impressions && m.clicks == row.clicks
    ensures m.conversions == row.conversions
  {
    CampaignMetrics(row.name, row.impressions, row.clicks, row.costMicros as real / MicrosPerUnit,
                    row.conversions, row.ctr * 100.0, row.averageCpcMicros / MicrosPerUnit,
                    row.conversionRate * 100.0)
  }

  /** The totals over every row, in order. */
  function TotalsOf(rows: seq<MetricsRow>): Totals {
    if rows == [] then NoTotals else TotalsOf(rows[..|rows| - 1]).Add(Normalize(rows[|rows| - 1]))
  }

  predicate CountsNonNegative(rows: seq<MetricsRow>) {
    forall i :: 0 <= i < |rows| ==> rows[i].impressions >= 0 && rows[i].clicks >= 0
  }

  predicate SomeImpressions(rows: seq<MetricsRow>) {
    exists i :: 0 <= i < |rows| && rows[i].impressions > 0
  }

  predicate SomeClicks(rows: seq<MetricsRow>) {
    exists i :: 0 <= i < |rows| && rows[i].clicks > 0
  }

  /** With no negative counts, the impressions and clicks totals are never
      negative, and each is positive exactly when some row's count is: the
      rates over them appear in the summary exactly when some row has any. */
  lemma {:induction false} TotalsPositiveIffSomeRow(rows: seq<MetricsRow>)
    requires CountsNonNegative(rows)
    ensures TotalsOf(rows).impressions >= 0 && TotalsOf(rows).clicks >= 0
    ensures TotalsOf(rows).impressions > 0 <==> SomeImpressions(rows)
    ensures TotalsOf(rows).clicks > 0 <==> SomeClicks(rows)
  {
    if rows != [] {
      var init, last := rows[..|rows| - 1], rows[|rows| - 1];
      assert CountsNonNegative(init) by {
        forall i | 0 <= i < |init| ensures init[i].impressions >= 0 && init[i].clicks >= 0 {
          assert init[i] == rows[i];
        }
      }
      TotalsPositiveIffSomeRow(init);
      assert SomeImpressions(rows) <==> SomeImpressions(init) || last.impressions > 0 by {
        if SomeImpressions(rows) && !(last.impressions > 0) {
          var i :| 0 <= i < |rows| && rows[i].impressions > 0;
          assert init[i] == rows[i];
        }
        if SomeImpressions(init) {
          var i :| 0 <= i < |init| && init[i].impressions > 0;
          assert init[i] == rows[i];
        }
      }
      assert SomeClicks(rows) <==> SomeClicks(init) || last.clicks > 0 by {
        if SomeClicks(rows) && !(last.clicks > 0) {
          var i :| 0 <= i < |rows| && rows[i].clicks > 0;
          assert init[i] == rows[i];
        }
        if SomeClicks(init) {
          var i :| 0 <= i < |init| && init[i].clicks > 0;
          assert init[i] == rows[i];
        }
      }
    }
  }

  /** The totals of a response split in two are the sums of the two parts' totals:
      every row counts once, whichever campaign id it carries. */
  lemma {:induction false} TotalsOfConcat(a: seq<MetricsRow>, b: seq<MetricsRow>)
    ensures TotalsOf(a + b) == TotalsOf(a).Plus(TotalsOf(b))
  {
    if b == [] {
      assert a + b == a;
    } else {
      var init := b[..|b| - 1];
      assert (a + b)[..|a + b| - 1] == a + init;
      assert (a + b)[|a + b| - 1] == b[|b| - 1];
      TotalsOfConcat(a, init);
    }
  }

  /** Row `i` is the last one in `rows` for its campaign id. */
  predicate LastForId(rows: seq<MetricsRow>, i: int)
    requires 0 <= i < |rows|
  {
    forall j :: i < j < |rows| ==> rows[j].campaignId != rows[i].campaignId
  }

  /** The per-campaign dictionary, written in row order so that a later row
      replaces an earlier one with the same campaign id. */
  function ByCampaign(rows: seq<MetricsRow>): (m: map<string, CampaignMetrics>)
    ensures |m| <= |rows|
  {
    if rows == [] then map[]
    else ByCampaign(rows[..|rows| - 1])[rows[|rows| - 1].campaignId := Normalize(rows[|rows| - 1])]
  }

  /** Grouping and totalling one more row of a response steps from the shorter prefix. */
  lemma PrefixStep(rows: seq<MetricsRow>, i: int)
    requires 0 <= i < |rows|
    ensures ByCampaign(rows[..i + 1]) == ByCampaign(rows[..i])[rows[i].campaignId := Normalize(rows[i])]
    ensures TotalsOf(rows[..i + 1]) == TotalsOf(rows[..i]).Add(Normalize(rows[i]))
  {
    assert rows[..i + 1][..i] == rows[..i];
  }

  /** Every campaign id in the response has an entry in the per-campaign dictionary. */
  lemma {:induction false} ByCampaignHasRowIds(rows: seq<MetricsRow>, i: int)
    requires 0 <= i < |rows|
    ensures rows[i].campaignId in ByCampaign(rows)
  {
    if i < |rows| - 1 {
      var init := rows[..|rows| - 1];
      assert init[i] == rows[i];
      ByCampaignHasRowIds(init, i);
    }
  }

  /** The per-campaign dictionary has entries only for campaign ids in the response. */
  lemma {:induction false} ByCampaignOnlyRowIds(rows: seq<MetricsRow>, id: string)
    requires id in ByCampaign(rows)
    ensures exists i :: 0 <= i < |rows| && rows[i].campaignId == id
  {
    var init := rows[..|rows| - 1];
    if id == rows[|rows| - 1].campaignId {
      assert rows[|rows| - 1].campaignId == id;
    } else {
      ByCampaignOnlyRowIds(init, id);
      var i :| 0 <= i < |init| && init[i].campaignId == id;
      assert rows[i] == init[i];
    }
  }

  /** A campaign's entry holds the metrics of the last row with its id: a later
      row replaces an earlier one. */
  lemma {:induction false} ByCampaignKeepsLastRow(rows: seq<MetricsRow>, i: int)
    requires 0 <= i < |rows| && LastForId(rows, i)
    ensures rows[i].campaignId in ByCampaign(rows)
    ensures ByCampaign(rows)[rows[i].campaignId] == Normalize(rows[i])
  {
    if i < |rows| - 1 {
      var init := rows[..|rows| - 1];
      assert init[i] == rows[i];
      assert LastForId(init, i) by {
        forall j | i < j < |init|
          ensures init[j].campaignId != init[i].campaignId
        {
          assert init[j] == rows[j];
        }
      }
      ByCampaignKeepsLastRow(init, i);
      assert rows[|rows| - 1].campaignId != rows[i].campaignId;
    }
  }

  /** The summary dictionary: the four totals, plus each derived rate only when
      its denominator is positive. */
  function SummaryOf(t: Totals): (s: map<string, real>)
    ensures s.Keys == {ImpressionsKey, ClicksKey, CostKey, ConversionsKey}
                      + (if t.impressions > 0 then {CtrKey} else {})
                      + (if t.clicks > 0 then {AverageCpcKey, ConversionRateKey} else {})
    ensures s[ImpressionsKey] == t.impressions as real && s[ClicksKey] == t.clicks as real
    ensures s[CostKey] == t.cost && s[ConversionsKey] == t.conversions
    ensures CtrKey in s ==> s[CtrKey] * s[ImpressionsKey] == 100.0 * s[ClicksKey]
    ensures AverageCpcKey in s ==> s[AverageCpcKey] * s[ClicksKey] == s[CostKey]
    ensures ConversionRateKey in s ==> s[ConversionRateKey] * s[ClicksKey] == 100.0 * s[ConversionsKey]
  {
    var base := map[ImpressionsKey := t.impressions as real, ClicksKey := t.clicks as real,
                    CostKey := t.cost, ConversionsKey := t.conversions];
    var withCtr :=
      if t.impressions > 0 then base[CtrKey := (t.clicks as real / t.impressions as real) * 100.0]
      else base;
    if t.clicks > 0 then
      withCtr[AverageCpcKey := t.cost / t.clicks as real]
             [ConversionRateKey := (t.conversions / t.clicks as real) * 100.0]
    else withCtr
  }

  /** `int(campaign_data.get('daily_budget', 1000) * 1_000_000)`. */
  function BudgetMicros(spec: CampaignSpec): (micros: int)
    ensures var budget := spec.dailyBudget.GetOr(DefaultDailyBudget);
            budget >= 0.0 ==> micros as real <= budget * MicrosPerUnit < micros as real + 1.0
  {
    Trunc(spec.dailyBudget.GetOr(DefaultDailyBudget) * MicrosPerUnit)
  }

  /** A daily budget read back from a micros amount converts to exactly those micros. */
  lemma MicrosRoundTrip(spec: CampaignSpec, micros: int)
    requires spec.dailyBudget == Some(micros as real / MicrosPerUnit)
    ensures BudgetMicros(spec) == micros
  {
    assert (micros as real / MicrosPerUnit) * MicrosPerUnit == micros as real;
    TruncOfWhole(micros);
  }

  class GoogleAdsIntegration {
    /** `self.client is not None`: the SDK client was loaded from the environment. */
    var clientLoaded: bool
    var customerId: Option<string>

    /** `__init__` and `_initialize_client`: the client is loaded only when all five
        credentials are set, and stays unloaded when loading raises. */
    constructor (env: map<string, string>, loadSucceeds: bool)
      ensures clientLoaded <==> MissingVars(env) == [] && loadSucceeds
      ensures customerId.Some? <==> clientLoaded
      ensures customerId.Some? ==> CustomerIdVar in env && customerId.value == env[CustomerIdVar]
      ensures IsConnected() <==> (forall v :: v in RequiredVars ==> IsSet(env, v)) && loadSucceeds
      ensures Valid()
    {
      clientLoaded := false;
      customerId := None;
      var missing := MissingVars(env);
      if missing == [] {
        if loadSucceeds {
          assert CustomerIdVar in RequiredVars;
          clientLoaded := true;
          customerId := Some(env[CustomerIdVar]);
        } else {
          clientLoaded := false;
        }
      }
    }

    /** The state every adapter reaches: the customer id is read only after the
        client loaded, and only from a credential that is set. */
    predicate Valid()
      reads this
    {
      (customerId.Some? <==> clientLoaded) &&
      (customerId.Some? ==> customerId.value != "")
    }

    /** `is_connected`: in a valid adapter the customer-id test adds nothing to
        the client test, and every query of a connected adapter names a
        non-empty customer id. */
    predicate IsConnected()
      reads this
      ensures Valid() ==> (IsConnected() <==> clientLoaded)
      ensures Valid() && IsConnected() ==> customerId.Some? && customerId.value != ""
    {
      clientLoaded && customerId.Some?
    }

    /** `get_campaigns`: one record per row, in the order returned, each tagged
        with this platform; nothing when disconnected or when the search raises. */
    method GetCampaigns(response: Call<seq<CampaignRow>>) returns (campaigns: seq<Campaign>)
      ensures !IsConnected() || response.Raised? ==> campaigns == []
      ensures IsConnected() && response.Returned? ==>
                |campaigns| == |response.value| &&
                forall i :: 0 <= i < |campaigns| ==> campaigns[i] == CampaignOf(response.value[i])
      ensures forall c :: c in campaigns ==> c.Tag() == GoogleAds
    {
      if !IsConnected() {
        return [];
      }
      match response {
        case Raised(_) =>
          campaigns := [];
        case Returned(rows) =>
          campaigns := [];
          var i := 0;
          while i < |rows|
            invariant 0 <= i <= |rows|
            invariant |campaigns| == i
            invariant forall k :: 0 <= k < i ==> campaigns[k] == CampaignOf(rows[k])
          {
            campaigns := campaigns + [CampaignOf(rows[i])];
            i := i + 1;
          }
      }
    }

    /** `get_campaign_performance`: folds the metric rows into per-campaign
        entries and totals over the window that ends today and starts `days`
        earlier; `{}` (None) when disconnected or when the search raises. */
    method GetCampaignPerformance(days: int, today: int, response: Call<seq<MetricsRow>>)
      returns (report: Option<PerformanceReport>)
      ensures !IsConnected() || response.Raised? ==> report == None
      ensures IsConnected() && response.Returned? ==> report.Some?
      ensures report.Some? ==>
                report.value.summary == SummaryOf(TotalsOf(response.value)) &&
                report.value.campaigns == ByCampaign(response.value)
      ensures report.Some? ==>
                report.value.dateRange.endDate == today &&
                report.value.dateRange.endDate - report.value.dateRange.startDate == days
    {
      if !IsConnected() {
        return None;
      }
      var range := Window(today, days);
      match response {
        case Raised(_) =>
          report := None;
        case Returned(rows) =>
          var byId: map<string, CampaignMetrics> := map[];
          var totals := NoTotals;
          var i := 0;
          while i < |rows|
            invariant 0 <= i <= |rows|
            invariant byId == ByCampaign(rows[..i])
            invariant totals == TotalsOf(rows[..i])
          {
            PrefixStep(rows, i);
            var m := Normalize(rows[i]);
            byId := byId[rows[i].campaignId := m];
            totals := totals.Add(m);
            i := i + 1;
          }
          assert rows[..|rows|] == rows;
          var summary := SummaryOf(totals);
          report := Some(PerformanceReport(byId, summary, range));
      }
    }

    /** `create_campaign`: sends the budget mutation, then a paused campaign
        linked to the budget the first reply named, and returns the last path
        segment of the created campaign's resource name. A missing name raises
        before anything is sent; any raise yields None. */
    function CreateCampaign(spec: CampaignSpec, budgetReply: Call<string>, campaignReply: Call<string>)
      : (r: CreateOutcome)
      reads this
      ensures !IsConnected() || spec.name.None? ==> r == CreateOutcome(None, None, None)
      ensures IsConnected() && spec.name.Some? ==>
                r.budgetRequest == Some(BudgetRequest(spec.name.value + " Budget", BudgetMicros(spec)))
      ensures r.campaignRequest.Some? <==> r.budgetRequest.Some? && budgetReply.Returned?
      ensures r.campaignRequest.Some? ==>
                r.campaignRequest.value.name == spec.name.value &&
                r.campaignRequest.value.status == Paused &&
                r.campaignRequest.value.budgetResource == budgetReply.value
      ensures r.campaignId.Some? <==> r.campaignRequest.Some? && campaignReply.Returned?
      ensures r.campaignId.Some? ==> r.campaignId.value == LastSegment(campaignReply.value)
    {
      if !IsConnected() || spec.name.None? then CreateOutcome(None, None, None)
      else
        var name := spec.name.value;
        var budget := BudgetRequest(name + " Budget", BudgetMicros(spec));
        match budgetReply
        case Raised(_) => CreateOutcome(Some(budget), None, None)
        case Returned(budgetResource) =>
          var campaign := CampaignRequest(name, "SEARCH", Paused, budgetResource, "MANUAL_CPC");
          match campaignReply
          case Raised(_) => CreateOutcome(Some(budget), Some(campaign), None)
          case Returned(resource) => CreateOutcome(Some(budget), Some(campaign), Some(LastSegment(resource)))
    }

    /** `update_campaign_budget`: acknowledges the request when connected and
        sends no mutation at all. */
    function UpdateCampaignBudget(campaignId: string, newBudget: real): (accepted: bool)
      reads this
      ensures accepted <==> IsConnected()
    {
      IsConnected()
    }

    /** `get_account_info`: the first customer row, or `{}` (None) when
        disconnected, when the search raises or when it returns no row. */
    function GetAccountInfo(response: Call<seq<CustomerRow>>): (info: Option<AccountInfo>)
      reads this
      ensures info.Some? <==> IsConnected() && response.Returned? && response.value != []
      ensures info.Some? ==>
                var row := response.value[0];
                info.value == GoogleAccount(row.id, row.descriptiveName, row.currencyCode,
                                            row.timeZone, row.status)
    {
      if !IsConnected() then None
      else
        match response
        case Raised(_) => None
        case Returned(rows) =>
          if rows == [] then None
          else
            var row := rows[0];
            Some(GoogleAccount(row.id, row.descriptiveName, row.currencyCode, row.timeZone, row.status))
    }
  }
}
