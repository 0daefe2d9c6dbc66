/** The Meta (Facebook/Instagram) Ads adapter: connection from four credentials
    with the ad account id normalised to its `act_` form, campaign listing, the
    insights fold with per-campaign conversion rates and derived totals,
    campaign creation and budget updates written in cents, pausing and
    resuming, and account lookup. Every remote call is an input: what it
    returned, or the exception it raised. */
module MetaAds {
  import opened AdsCommon

  const AccessTokenVar := "META_ACCESS_TOKEN"
  const AppIdVar := "META_APP_ID"
  const AppSecretVar := "META_APP_SECRET"
  const AdAccountIdVar := "META_AD_ACCOUNT_ID"

  /** The credentials checked before the API is initialised, in the order checked. */
  const RequiredVars: seq<string> := [AccessTokenVar, AppIdVar, AppSecretVar, AdAccountIdVar]

  /** The prefix every Graph API ad account id carries. */
  const AccountPrefix := "act_"

  const CentsPerUnit: real := 100.0

  /** The objective a new campaign gets when `campaign_data` names none. */
  const DefaultObjective := "LINK_CLICKS"

  /** The name an insight row without `campaign_name` is reported under. */
  const UnknownName := "Unknown"

  /** The budget type `update_campaign_budget` treats as daily; any other writes the lifetime budget. */
  const DailyBudgetType := "daily"

  /** The credential names that are unset or empty, in the order checked. */
  function MissingVars(env: map<string, string>): (missing: seq<string>)
    ensures missing == [] <==> forall v :: v in RequiredVars ==> IsSet(env, v)
    ensures forall v :: v in missing <==> v in RequiredVars && !IsSet(env, v)
    ensures IsSubsequence(missing, RequiredVars)
  {
    MissingNames(RequiredVars, name => IsSet(env, name))
  }

  predicate HasAccountPrefix(id: string) {
    |id| >= |AccountPrefix| && id[..|AccountPrefix|] == AccountPrefix
  }

  /** The ad account id as configured, with `act_` put in front unless it is already there. */
  function NormalizeAccountId(id: string): (r: string)
    ensures HasAccountPrefix(r)
    ensures r == id || r == AccountPrefix + id
    ensures HasAccountPrefix(id) ==> r == id
  {
    if HasAccountPrefix(id) then id
    else
      assert (AccountPrefix + id)[..|AccountPrefix|] == AccountPrefix;
      AccountPrefix + id
  }

  /** Normalising twice is normalising once. */
  lemma NormalizeAccountIdIdempotent(id: string)
    ensures NormalizeAccountId(NormalizeAccountId(id)) == NormalizeAccountId(id)
  {
  }

  /** An amount in currency units as the integer number of cents the API expects:
      `int(amount * 100)`. */
  function ToCents(amount: real): (cents: int)
    ensures 0.0 <= amount ==> cents as real <= amount * CentsPerUnit < cents as real + 1.0
    ensures amount < 0.0 ==> cents as real - 1.0 < amount * CentsPerUnit <= cents as real
  {
    Trunc(amount * CentsPerUnit)
  }

  /** An amount read back from a cents value converts to exactly those cents. */
  lemma CentsRoundTrip(cents: int)
    ensures ToCents(cents as real / CentsPerUnit) == cents
  {
    assert (cents as real / CentsPerUnit) * CentsPerUnit == cents as real;
    TruncOfWhole(cents);
  }

  /** `campaign.get(key)` on a campaign or account object from the API. */
  function Lookup(fields: map<string, string>, key: string): Option<string> {
    if key in fields then Some(fields[key]) else None
  }

  /** One campaign of the listing: each field is whatever the object holds under its key. */
  function CampaignOf(fields: map<string, string>): (c: Campaign)
    ensures c.Tag() == MetaAds
    ensures c.metaId == Lookup(fields, "id") && c.metaName == Lookup(fields, "name")
    ensures c.metaStatus == Lookup(fields, "status") && c.objective == Lookup(fields, "objective")
    ensures c.createdTime == Lookup(fields, "created_time") && c.startTime == Lookup(fields, "start_time")
    ensures c.stopTime == Lookup(fields, "stop_time")
    ensures c.dailyBudget == Lookup(fields, "daily_budget")
    ensures c.lifetimeBudget == Lookup(fields, "lifetime_budget")
  {
    MetaCampaign(Lookup(fields, "id"), Lookup(fields, "name"), Lookup(fields, "status"),
                 Lookup(fields, "objective"), Lookup(fields, "created_time"), Lookup(fields, "start_time"),
                 Lookup(fields, "stop_time"), Lookup(fields, "daily_budget"), Lookup(fields, "lifetime_budget"))
  }

  /** Which insights the performance query asks for: one campaign when an id is
      given, otherwise the whole ad account. */
  datatype InsightsScope = OneCampaign(campaignId: string) | WholeAccount

  function ScopeOf(campaignId: Option<string>): (s: InsightsScope)
    ensures s.OneCampaign? <==> campaignId.Some? && campaignId.value != ""
    ensures s.OneCampaign? ==> s.campaignId == campaignId.value
  {
    if campaignId.Some? && campaignId.value != "" then OneCampaign(campaignId.value) else WholeAccount
  }

  /** One insight row; every field may be absent. */
  datatype InsightRow = InsightRow(campaignId: Option<string>, campaignName: Option<string>,
                                   impressions: Option<int>, clicks: Option<int>, spend: Option<real>,
                                   ctr: Option<real>, cpc: Option<real>, conversions: Option<int>,
                                   costPerConversion: Option<real>)

  /** One campaign's metrics, with absent fields read as 0 and the conversion rate derived. */
  datatype CampaignMetrics = CampaignMetrics(name: string, impressions: int, clicks: int, spend: real,
                                             ctr: real, cpc: real, conversions: int,
                                             costPerConversion: real, conversionRate: real)

  /** The running totals of the insights fold. */
  datatype Totals = Totals(impressions: int, clicks: int, spend: real, conversions: int) {
    function Add(m: CampaignMetrics): Totals {
      Totals(impressions + m.impressions, clicks + m.clicks, spend + m.spend, conversions + m.conversions)
    }

    function Plus(t: Totals): Totals {
      Totals(impressions + t.impressions, clicks + t.clicks, spend + t.spend, conversions + t.conversions)
    }
  }

  const NoTotals := Totals(0, 0, 0.0, 0)

  /** What `get_campaign_performance` returns when it has data. The per-campaign
      dictionary is keyed by the row's `campaign_id`, which may be absent. */
  datatype PerformanceReport = PerformanceReport(campaigns: map<Option<string>, CampaignMetrics>,
                                                 summary: map<string, real>, dateRange: DateRange)

  /** One insight row read with its defaults, plus the conversion rate as a percentage of clicks. */
  function Normalize(row: InsightRow): CampaignMetrics {
    var clicks := row.clicks.GetOr(0);
    var conversions := row.conversions.GetOr(0);
    var rate := if clicks > 0 then (conversions as real / clicks as real) * 100.0 else 0.0;
    CampaignMetrics(row.campaignName.GetOr(UnknownName), row.impressions.GetOr(0), clicks,
                    row.spend.GetOr(0.0), row.ctr.GetOr(0.0), row.cpc.GetOr(0.0), conversions,
                    row.costPerConversion.GetOr(0.0), rate)
  }

  /** A missing name reads as "Unknown", every missing count or amount as 0,
      and every present field is taken as it is. */
  lemma NormalizeDefaults(row: InsightRow)
    ensures Normalize(row).name == (if row.campaignName.Some? then row.campaignName.value else UnknownName)
    ensures Normalize(row).impressions == (if row.impressions.Some? then row.impressions.value else 0)
    ensures Normalize(row).clicks == (if row.clicks.Some? then row.clicks.value else 0)
    ensures Normalize(row).spend == (if row.spend.Some? then row.spend.value else 0.0)
    ensures Normalize(row).ctr == (if row.ctr.Some? then row.ctr.value else 0.0)
    ensures Normalize(row).cpc == (if row.cpc.Some? then row.cpc.value else 0.0)
    ensures Normalize(row).conversions == (if row.conversions.Some? then row.conversions.value else 0)
    ensures Normalize(row).costPerConversion ==
              (if row.costPerConversion.Some? then row.costPerConversion.value else 0.0)
  {
  }

  /** A row's conversion rate is its conversions as a percentage of its clicks, and 0 without clicks. */
  lemma ConversionRateOfRow(row: InsightRow)
    ensures var m := Normalize(row);
            (m.clicks > 0 ==> m.conversionRate * m.clicks as real == 100.0 * m.conversions as real) &&
            (m.clicks <= 0 ==> m.conversionRate == 0.0)
  {
  }

  /** The totals over every row, in order, absent counts read as 0. */
  function TotalsOf(rows: seq<InsightRow>): Totals {
    if rows == [] then NoTotals else TotalsOf(rows[..|rows| - 1]).Add(Normalize(rows[|rows| - 1]))
  }

  predicate CountsNonNegative(rows: seq<InsightRow>) {
    forall i :: 0 <= i < |rows| ==> rows[i].impressions.GetOr(0) >= 0 && rows[i].clicks.GetOr(0) >= 0
  }

  predicate SomeImpressions(rows: seq<InsightRow>) {
    exists i :: 0 <= i < |rows| && rows[i].impressions.GetOr(0) > 0
  }

  predicate SomeClicks(rows: seq<InsightRow>) {
    exists i :: 0 <= i < |rows| && rows[i].clicks.GetOr(0) > 0
  }

  /** With no negative counts, the impressions and clicks totals are never
      negative, and each is positive exactly when some row's count is: the
      rates over them appear in the summary exactly when some row has any. */
  lemma {:induction false} TotalsPositiveIffSomeRow(rows: seq<InsightRow>)
    requires CountsNonNegative(rows)
    ensures TotalsOf(rows).impressions >= 0 && TotalsOf(rows).clicks >= 0
    ensures TotalsOf(rows).impressions > 0 <==> SomeImpressions(rows)
    ensures TotalsOf(rows).clicks > 0 <==> SomeClicks(rows)
  {
    if rows != [] {
      var init, last := rows[..|rows| - 1], rows[|rows| - 1];
      assert CountsNonNegative(init) by {
        forall i | 0 <= i < |init| ensures init[i].impressions.GetOr(0) >= 0 && init[i].clicks.GetOr(0) >= 0 {
          assert init[i] == rows[i];
        }
      }
      TotalsPositiveIffSomeRow(init);
      assert SomeImpressions(rows) <==> SomeImpressions(init) || last.impressions.GetOr(0) > 0 by {
        if SomeImpressions(rows) && !(last.impressions.GetOr(0) > 0) {
          var i :| 0 <= i < |rows| && rows[i].impressions.GetOr(0) > 0;
          assert init[i] == rows[i];
        }
        if SomeImpressions(init) {
          var i :| 0 <= i < |init| && init[i].impressions.GetOr(0) > 0;
          assert init[i] == rows[i];
        }
      }
      assert SomeClicks(rows) <==> SomeClicks(init) || last.clicks.GetOr(0) > 0 by {
        if SomeClicks(rows) && !(last.clicks.GetOr(0) > 0) {
          var i :| 0 <= i < |rows| && rows[i].clicks.GetOr(0) > 0;
          assert init[i] == rows[i];
        }
        if SomeClicks(init) {
          var i :| 0 <= i < |init| && init[i].clicks.GetOr(0) > 0;
          assert init[i] == rows[i];
        }
      }
    }
  }

  /** The totals of a response split in two are the sums of the two parts' totals:
      every row counts once, whichever campaign id it carries. */
  lemma {:induction false} TotalsOfConcat(a: seq<InsightRow>, b: seq<InsightRow>)
    ensures TotalsOf(a + b) == TotalsOf(a).Plus(TotalsOf(b))
  {
    if b == [] {
      assert a + b == a;
    } else {
      var init := b[..|b| - 1];
      assert (a + b)[..|a + b| - 1] == a + init;
      assert (a + b)[|a + b| - 1] == b[|b| - 1];
      TotalsOfConcat(a, init);
    }
  }

  /** Row `i` is the last one in `rows` for its campaign id. */
  predicate LastForId(rows: seq<InsightRow>, i: int)
    requires 0 <= i < |rows|
  {
    forall j :: i < j < |rows| ==> rows[j].campaignId != rows[i].campaignId
  }

  /** The per-campaign dictionary, written in row order so that a later row
      replaces an earlier one with the same campaign id. */
  function ByCampaign(rows: seq<InsightRow>): (m: map<Option<string>, CampaignMetrics>)
    ensures |m| <= |rows|
  {
    if rows == [] then map[]
    else ByCampaign(rows[..|rows| - 1])[rows[|rows| - 1].campaignId := Normalize(rows[|rows| - 1])]
  }

  /** Grouping and totalling one more row of a response steps from the shorter prefix. */
  lemma PrefixStep(rows: seq<InsightRow>, i: int)
    requires 0 <= i < |rows|
    ensures ByCampaign(rows[..i + 1]) == ByCampaign(rows[..i])[rows[i].campaignId := Normalize(rows[i])]
    ensures TotalsOf(rows[..i + 1]) == TotalsOf(rows[..i]).Add(Normalize(rows[i]))
  {
    assert rows[..i + 1][..i] == rows[..i];
  }

  /** Every campaign id in the response has an entry in the per-campaign dictionary (absent ids sharing one entry). */
  lemma {:induction false} ByCampaignHasRowIds(rows: seq<InsightRow>, i: int)
    requires 0 <= i < |rows|
    ensures rows[i].campaignId in ByCampaign(rows)
  {
    if i < |rows| - 1 {
      var init := rows[..|rows| - 1];
      assert init[i] == rows[i];
      ByCampaignHasRowIds(init, i);
    }
  }

  /** The per-campaign dictionary has entries only for campaign ids in the response. */
  lemma {:induction false} ByCampaignOnlyRowIds(rows: seq<InsightRow>, id: Option<string>)
    requires id in ByCampaign(rows)
    ensures exists i :: 0 <= i < |rows| && rows[i].campaignId == id
  {
    var init := rows[..|rows| - 1];
    if id == rows[|rows| - 1].campaignId {
      assert rows[|rows| - 1].campaignId == id;
    } else {
      ByCampaignOnlyRowIds(init, id);
      var i :| 0 <= i < |init| && init[i].campaignId == id;
      assert rows[i] == init[i];
    }
  }

  /** A campaign's entry holds the metrics of the last row with its id: a later
      row replaces an earlier one. */
  lemma {:induction false} ByCampaignKeepsLastRow(rows: seq<InsightRow>, i: int)
    requires 0 <= i < |rows| && LastForId(rows, i)
    ensures rows[i].campaignId in ByCampaign(rows)
    ensures ByCampaign(rows)[rows[i].campaignId] == Normalize(rows[i])
  {
    if i < |rows| - 1 {
      var init := rows[..|rows| - 1];
      assert init[i] == rows[i];
      assert LastForId(init, i) by {
        forall j | i < j < |init|
          ensures init[j].campaignId != init[i].campaignId
        {
          assert init[j] == rows[j];
        }
      }
      ByCampaignKeepsLastRow(init, i);
      assert rows[|rows| - 1].campaignId != rows[i].campaignId;
    }
  }

  /** The summary dictionary: the four totals, plus each derived rate only when
      its denominator is positive. */
  function SummaryOf(t: Totals): (s: map<string, real>)
    ensures s.Keys == {ImpressionsKey, ClicksKey, SpendKey, ConversionsKey}
                      + (if t.impressions > 0 then {CtrKey} else {})
                      + (if t.clicks > 0 then {CpcKey, ConversionRateKey} else {})
                      + (if t.conversions > 0 then {CostPerConversionKey} else {})
    ensures s[ImpressionsKey] == t.impressions as real && s[ClicksKey] == t.clicks as real
    ensures s[SpendKey] == t.spend && s[ConversionsKey] == t.conversions as real
    ensures CtrKey in s ==> s[CtrKey] * s[ImpressionsKey] == 100.0 * s[ClicksKey]
    ensures CpcKey in s ==> s[CpcKey] * s[ClicksKey] == s[SpendKey]
    ensures ConversionRateKey in s ==> s[ConversionRateKey] * s[ClicksKey] == 100.0 * s[ConversionsKey]
    ensures CostPerConversionKey in s ==> s[CostPerConversionKey] * s[ConversionsKey] == s[SpendKey]
  {
    var base := map[ImpressionsKey := t.impressions as real, ClicksKey := t.clicks as real,
                    SpendKey := t.spend, ConversionsKey := t.conversions as real];
    var withCtr :=
      if t.impressions > 0 then base[CtrKey := (t.clicks as real / t.impressions as real) * 100.0]
      else base;
    var withCpc :=
      if t.clicks > 0 then
        withCtr[CpcKey := t.spend / t.clicks as real]
               [ConversionRateKey := (t.conversions as real / t.clicks as real) * 100.0]
      else withCtr;
    if t.conversions > 0 then withCpc[CostPerConversionKey := t.spend / t.conversions as real]
    else withCpc
  }

  /** A budget field as written to the API, in cents. */
  datatype BudgetField = DailyBudgetCents(cents: int) | LifetimeBudgetCents(cents: int)

  /** The campaign object `create_campaign` sends: always paused, under the
      adapter's ad account, with at most one budget field. */
  datatype CampaignRequest = CampaignRequest(parentId: Option<string>, name: string, objective: string,
                                             status: CampaignStatus, budget: Option<BudgetField>)

  /** The request `create_campaign` sent, if it got that far, and the id it returned. */
  datatype CreateOutcome = CreateOutcome(request: Option<CampaignRequest>, campaignId: Option<string>)

  /** An update sent to one existing campaign. */
  datatype Update =
    | BudgetUpdate(campaignId: string, field: BudgetField)
    | StatusUpdate(campaignId: string, status: CampaignStatus)

  /** The update a call sent, if any, and the boolean it returned. */
  datatype Mutation = Mutation(request: Option<Update>, ok: bool)

  /** The budget of a new campaign: the daily budget when `campaign_data` has
      one, else the lifetime budget, else none. */
  function InitialBudget(spec: CampaignSpec): (b: Option<BudgetField>)
    ensures spec.dailyBudget.Some? ==> b == Some(DailyBudgetCents(ToCents(spec.dailyBudget.value)))
    ensures spec.dailyBudget.None? && spec.lifetimeBudget.Some? ==>
              b == Some(LifetimeBudgetCents(ToCents(spec.lifetimeBudget.value)))
    ensures b.None? <==> spec.dailyBudget.None? && spec.lifetimeBudget.None?
  {
    if spec.dailyBudget.Some? then Some(DailyBudgetCents(ToCents(spec.dailyBudget.value)))
    else if spec.lifetimeBudget.Some? then Some(LifetimeBudgetCents(ToCents(spec.lifetimeBudget.value)))
    else None
  }

  class MetaAdsIntegration {
    /** `self.api is not None`: the API was initialised and the account answered. */
    var apiReady: bool
    var adAccountId: Option<string>
    /** `self.ad_account`: the account object, known by the id it was built from. */
    var adAccount: Option<string>

    /** `__init__` and `_initialize_client`. The account id is set as soon as the
        API is initialised, and stays set when the verifying account read then
        raises: only the API handle is cleared. */
    constructor (env: map<string, string>, initSucceeds: bool, verifySucceeds: bool)
      ensures adAccountId.Some? <==> MissingVars(env) == [] && initSucceeds
      ensures adAccountId.Some? ==>
                AdAccountIdVar in env && adAccountId.value == NormalizeAccountId(env[AdAccountIdVar])
      ensures apiReady <==> adAccountId.Some? && verifySucceeds
      ensures IsConnected() <==> (forall v :: v in RequiredVars ==> IsSet(env, v)) && initSucceeds && verifySucceeds
      ensures Valid()
    {
      apiReady := false;
      adAccountId := None;
      adAccount := None;
      var missing := MissingVars(env);
      if missing == [] && initSucceeds {
        assert AdAccountIdVar in RequiredVars;
        adAccountId := Some(NormalizeAccountId(env[AdAccountIdVar]));
        adAccount := adAccountId;
        apiReady := verifySucceeds;
      }
    }

    /** The state every adapter reaches: the account object is the one for the
        stored id, that id is in `act_` form, and the API handle exists only with an account. */
    predicate Valid()
      reads this
    {
      adAccount == adAccountId &&
      (adAccountId.Some? ==> HasAccountPrefix(adAccountId.value)) &&
      (apiReady ==> adAccountId.Some?)
    }

    /** `is_connected`: in a valid adapter the account test adds nothing to the
        API test, and every call of a connected adapter goes to an `act_` account. */
    predicate IsConnected()
      reads this
      ensures Valid() ==> (IsConnected() <==> apiReady)
      ensures Valid() && IsConnected() ==> adAccountId.Some? && HasAccountPrefix(adAccountId.value)
    {
      apiReady && adAccount.Some?
    }

    /** `get_campaigns`: one record per campaign object, in the order returned,
        each tagged with this platform; nothing when disconnected or when the listing raises. */
    method GetCampaigns(response: Call<seq<map<string, string>>>) returns (campaigns: seq<Campaign>)
      ensures !IsConnected() || response.Raised? ==> campaigns == []
      ensures IsConnected() && response.Returned? ==>
                |campaigns| == |response.value| &&
                forall i :: 0 <= i < |campaigns| ==> campaigns[i] == CampaignOf(response.value[i])
      ensures forall c :: c in campaigns ==> c.Tag() == MetaAds
    {
      if !IsConnected() {
        return [];
      }
      match response {
        case Raised(_) =>
          campaigns := [];
        case Returned(objects) =>
          campaigns := [];
          var i := 0;
          while i < |objects|
            invariant 0 <= i <= |objects|
            invariant |campaigns| == i
            invariant forall k :: 0 <= k < i ==> campaigns[k] == CampaignOf(objects[k])
          {
            campaigns := campaigns + [CampaignOf(objects[i])];
            i := i + 1;
          }
      }
    }

    /** `get_campaign_performance`: folds the insight rows of the window that
        ends today and starts `days` earlier into per-campaign entries and
        totals; `{}` (None) when disconnected or when the insights call raises.
        `asked` is the query scope sent (one campaign or the whole account),
        and `response` is the answer to that query. */
    method GetCampaignPerformance(campaignId: Option<string>, days: int, today: int,
                                  response: Call<seq<InsightRow>>)
      returns (report: Option<PerformanceReport>, asked: Option<InsightsScope>)
      ensures asked == if IsConnected() then Some(ScopeOf(campaignId)) else None
      ensures !IsConnected() || response.Raised? ==> report == None
      ensures IsConnected() && response.Returned? ==> report.Some?
      ensures report.Some? ==>
                report.value.summary == SummaryOf(TotalsOf(response.value)) &&
                report.value.campaigns == ByCampaign(response.value)
      ensures report.Some? ==>
                report.value.dateRange.endDate == today &&
                report.value.dateRange.endDate - report.value.dateRange.startDate == days
    {
      if !IsConnected() {
        return None, None;
      }
      asked := Some(ScopeOf(campaignId));
      var range := Window(today, days);
      match response {
        case Raised(_) =>
          report := None;
        case Returned(rows) =>
          var byId: map<Option<string>, CampaignMetrics> := map[];
          var totals := NoTotals;
          var i := 0;
          while i < |rows|
            invariant 0 <= i <= |rows|
            invariant byId == ByCampaign(rows[..i])
            invariant totals == TotalsOf(rows[..i])
          {
            PrefixStep(rows, i);
            var m := Normalize(rows[i]);
            byId := byId[rows[i].campaignId := m];
            totals := totals.Add(m);
            i := i + 1;
          }
          assert rows[..|rows|] == rows;
          var summary := SummaryOf(totals);
          report := Some(PerformanceReport(byId, summary, range));
      }
    }

    /** `create_campaign`: builds a paused campaign under the ad account, with
        the objective given or `LINK_CLICKS`, and the daily budget if given,
        else the lifetime budget, in cents; returns the id of the created
        campaign. A missing name raises before anything is sent; any raise yields None. */
    function CreateCampaign(spec: CampaignSpec, reply: Call<string>): (r: CreateOutcome)
      reads this
      ensures !IsConnected() || spec.name.None? ==> r == CreateOutcome(None, None)
      ensures IsConnected() && spec.name.Some? ==>
                r.request == Some(CampaignRequest(adAccountId, spec.name.value,
                                                  spec.objective.GetOr(DefaultObjective), Paused,
                                                  InitialBudget(spec)))
      ensures Valid() && r.request.Some? ==>
                r.request.value.parentId.Some? && HasAccountPrefix(r.request.value.parentId.value)
      ensures r.campaignId.Some? <==> r.request.Some? && reply.Returned?
      ensures r.campaignId.Some? ==> r.campaignId.value == reply.value
    {
      if !IsConnected() || spec.name.None? then CreateOutcome(None, None)
      else
        var request := CampaignRequest(adAccountId, spec.name.value, spec.objective.GetOr(DefaultObjective),
                                       Paused, InitialBudget(spec));
        match reply
        case Raised(_) => CreateOutcome(Some(request), None)
        case Returned(id) => CreateOutcome(Some(request), Some(id))
    }

    /** `update_campaign_budget`: writes the new budget in cents to the daily
        field when the type is "daily" and to the lifetime field otherwise;
        true exactly when the update was sent and did not raise. */
    function UpdateCampaignBudget(campaignId: string, newBudget: real, budgetType: string, reply: Call<()>)
      : (r: Mutation)
      reads this
      ensures !IsConnected() ==> r == Mutation(None, false)
      ensures IsConnected() ==>
                r.request.Some? && r.request.value.BudgetUpdate? &&
                r.request.value.campaignId == campaignId
      ensures r.request.Some? ==>
                (r.request.value.field.DailyBudgetCents? <==> budgetType == DailyBudgetType) &&
                r.request.value.field.cents == ToCents(newBudget)
      ensures r.ok <==> IsConnected() && reply.Returned?
    {
      if !IsConnected() then Mutation(None, false)
      else
        var cents := ToCents(newBudget);
        var field := if budgetType == DailyBudgetType then DailyBudgetCents(cents) else LifetimeBudgetCents(cents);
        Mutation(Some(BudgetUpdate(campaignId, field)), reply.Returned?)
    }

    /** `pause_campaign`: sets the campaign's status to paused. */
    function PauseCampaign(campaignId: string, reply: Call<()>): (r: Mutation)
      reads this
      ensures !IsConnected() ==> r == Mutation(None, false)
      ensures IsConnected() ==> r.request == Some(StatusUpdate(campaignId, Paused))
      ensures r.ok <==> IsConnected() && reply.Returned?
    {
      StatusChange(campaignId, Paused, reply)
    }

    /** `resume_campaign`: sets the campaign's status to active. */
    function ResumeCampaign(campaignId: string, reply: Call<()>): (r: Mutation)
      reads this
      ensures !IsConnected() ==> r == Mutation(None, false)
      ensures IsConnected() ==> r.request == Some(StatusUpdate(campaignId, Active))
      ensures r.ok <==> IsConnected() && reply.Returned?
    {
      StatusChange(campaignId, Active, reply)
    }

    /** The shared shape of pausing and resuming. */
    function StatusChange(campaignId: string, status: CampaignStatus, reply: Call<()>): Mutation
      reads this
    {
      if !IsConnected() then Mutation(None, false)
      else Mutation(Some(StatusUpdate(campaignId, status)), reply.Returned?)
    }

    /** `get_account_info`: the account's fields as the read returned them, or
        `{}` (None) when disconnected or when the read raises. */
    function GetAccountInfo(response: Call<map<string, string>>): (info: Option<AccountInfo>)
      reads this
      ensures info.Some? <==> IsConnected() && response.Returned?
      ensures info.Some? ==>
                var fields := response.value;
                info.value == MetaAccount(Lookup(fields, "id"), Lookup(fields, "name"),
                                          Lookup(fields, "account_status"), Lookup(fields, "currency"),
                                          Lookup(fields, "timezone_name"), Lookup(fields, "business_name"),
                                          Lookup(fields, "spend_cap"))
    {
      if !IsConnected() then None
      else
        match response
        case Raised(_) => None
        case Returned(fields) =>
          Some(MetaAccount(Lookup(fields, "id"), Lookup(fields, "name"), Lookup(fields, "account_status"),
                           Lookup(fields, "currency"), Lookup(fields, "timezone_name"),
                           Lookup(fields, "business_name"), Lookup(fields, "spend_cap")))
    }
  }
}
