/** The unified manager over both advertising platforms: the cached list of
    connected platforms, merged campaign listings with per-platform
    annotations, cross-platform performance totals and averages, dispatch of
    campaign operations by platform name, account lookup, and the comparison
    and recommendations drawn from a performance report. What each adapter
    call produced (or the exception it raised) is an input. */
module Aggregation {
  import opened AdsCommon
  import G = GoogleAds
  import M = MetaAds

  /** The platforms among the two whose connection check held, in visiting order. */
  function ConnectedList(googleConnected: bool, metaConnected: bool): (ps: seq<Platform>)
    ensures GoogleAds in ps <==> googleConnected
    ensures MetaAds in ps <==> metaConnected
    ensures forall i, j :: 0 <= i < j < |ps| ==> ps[i].Rank() < ps[j].Rank()
  {
    (if googleConnected then [GoogleAds] else []) + (if metaConnected then [MetaAds] else [])
  }

  /** What `get_connection_status` reports. */
  datatype ConnectionStatus = ConnectionStatus(googleConnected: bool, googleAccountId: Option<string>,
                                               metaConnected: bool, metaAccountId: Option<string>,
                                               connectedPlatforms: seq<Platform>, totalConnected: int)

  /** A platform's entry in the campaign listing: how many campaigns it gave,
      and whether fetching them succeeded or raised with a message. */
  datatype FetchStatus = Fetched | FetchFailed(error: string)
  datatype PlatformCampaigns = PlatformCampaigns(campaignCount: int, status: FetchStatus)

  /** What `get_all_campaigns` returns. */
  datatype CampaignsReport = CampaignsReport(campaigns: seq<Campaign>, platforms: map<Platform, PlatformCampaigns>,
                                             totalCampaigns: int, platformsConnected: int)

  /** The campaigns a platform adds to the merged list: those it returned, if it
      is connected and its fetch did not raise. */
  function CampaignsFrom(connected: bool, fetch: Call<seq<Campaign>>): seq<Campaign> {
    if connected && fetch.Returned? then fetch.value else []
  }

  /** The annotation of a connected platform's fetch. */
  function Annotation(fetch: Call<seq<Campaign>>): (a: PlatformCampaigns)
    ensures a.status.Fetched? <==> fetch.Returned?
    ensures a.campaignCount == |CampaignsFrom(true, fetch)|
  {
    match fetch
    case Returned(cs) => PlatformCampaigns(|cs|, Fetched)
    case Raised(e) => PlatformCampaigns(0, FetchFailed(e))
  }

  /** Every campaign a fetch returned carries the given platform's tag, as both adapters guarantee. */
  predicate AllTagged(fetch: Call<seq<Campaign>>, p: Platform) {
    fetch.Returned? ==> forall c :: c in fetch.value ==> c.Tag() == p
  }

  /** The quantities `get_all_performance_data` reads from a platform summary. */
  datatype Metric = Impressions | Clicks | Spend | Conversions | Ctr | Cpc

  /** A platform's performance report as the manager stores it. */
  datatype PlatformPerformance = GooglePerformance(google: G.PerformanceReport) | MetaPerformance(meta: M.PerformanceReport) {
    function Tag(): Platform {
      if GooglePerformance? then GoogleAds else MetaAds
    }

    function Summary(): map<string, real> {
      if GooglePerformance? then google.summary else meta.summary
    }

    /** Each platform's own name for a metric: Google says `cost` and
        `average_cpc` where Meta says `spend` and `cpc`. */
    function Key(metric: Metric): string {
      match metric
      case Impressions => ImpressionsKey
      case Clicks => ClicksKey
      case Spend => if GooglePerformance? then CostKey else SpendKey
      case Conversions => ConversionsKey
      case Ctr => CtrKey
      case Cpc => if GooglePerformance? then AverageCpcKey else CpcKey
    }

    /** `summary.get(key, 0)`. */
    function Value(metric: Metric): real {
      Get(Summary(), Key(metric), 0.0)
    }
  }

  /** The report a platform contributes: one, when it is connected and its call
      returned a non-empty report; none when disconnected, empty or raised. */
  function GoogleContribution(connected: bool, fetch: Call<Option<G.PerformanceReport>>): (ps: seq<PlatformPerformance>)
    ensures |ps| <= 1 && forall p :: p in ps ==> p.Tag() == GoogleAds
    ensures ps != [] <==> connected && fetch.Returned? && fetch.value.Some?
    ensures ps != [] ==> ps[0] == GooglePerformance(fetch.value.value)
  {
    if connected && fetch.Returned? && fetch.value.Some? then [GooglePerformance(fetch.value.value)] else []
  }

  function MetaContribution(connected: bool, fetch: Call<Option<M.PerformanceReport>>): (ps: seq<PlatformPerformance>)
    ensures |ps| <= 1 && forall p :: p in ps ==> p.Tag() == MetaAds
    ensures ps != [] <==> connected && fetch.Returned? && fetch.value.Some?
    ensures ps != [] ==> ps[0] == MetaPerformance(fetch.value.value)
  {
    if connected && fetch.Returned? && fetch.value.Some? then [MetaPerformance(fetch.value.value)] else []
  }

  /** One metric of each included platform, in order. */
  function Column(ps: seq<PlatformPerformance>, metric: Metric): (xs: seq<real>)
    ensures |xs| == |ps|
    ensures forall i :: 0 <= i < |ps| ==> xs[i] == ps[i].Value(metric)
  {
    if ps == [] then [] else Column(ps[..|ps| - 1], metric) + [ps[|ps| - 1].Value(metric)]
  }

  /** Including one more platform extends every column, every sum and every
      list of positive values by that platform's value. */
  lemma ColumnSnoc(ps: seq<PlatformPerformance>, p: PlatformPerformance, metric: Metric)
    ensures Column(ps + [p], metric) == Column(ps, metric) + [p.Value(metric)]
    ensures SumOf(Column(ps + [p], metric)) == SumOf(Column(ps, metric)) + p.Value(metric)
    ensures Positives(Column(ps + [p], metric))
            == Positives(Column(ps, metric)) + (if p.Value(metric) > 0.0 then [p.Value(metric)] else [])
  {
    assert (ps + [p])[..|ps|] == ps;
    var xs := Column(ps + [p], metric);
    assert xs[..|xs| - 1] == Column(ps, metric);
  }

  /** What `get_all_performance_data` returns. */
  datatype PerformanceData = PerformanceData(platforms: map<Platform, PlatformPerformance>,
                                             summary: SummaryFigures, dateRangeDays: int)

  /** One row of the platform comparison, with spend read as `spend`, then
      `cost`, then 0, and cost per click as `cpc`, then `average_cpc`, then 0. */
  datatype ComparisonRow = ComparisonRow(totalSpend: real, totalClicks: real, totalImpressions: real,
                                         ctr: real, cpc: real, conversions: real)

  /** One entry of a performance report's `platforms` dictionary: its name and
      its summary (`{}` when it has none). */
  datatype PlatformSummary = PlatformSummary(name: string, summary: map<string, real>)

  function ComparisonOf(s: map<string, real>): (row: ComparisonRow)
    ensures SpendKey in s ==> row.totalSpend == s[SpendKey]
    ensures SpendKey !in s ==> row.totalSpend == Get(s, CostKey, 0.0)
    ensures CpcKey in s ==> row.cpc == s[CpcKey]
    ensures CpcKey !in s ==> row.cpc == Get(s, AverageCpcKey, 0.0)
    ensures row.ctr == Get(s, CtrKey, 0.0) && row.conversions == Get(s, ConversionsKey, 0.0)
    ensures row.totalClicks == Get(s, ClicksKey, 0.0) && row.totalImpressions == Get(s, ImpressionsKey, 0.0)
  {
    ComparisonRow(Get(s, SpendKey, Get(s, CostKey, 0.0)), Get(s, ClicksKey, 0.0), Get(s, ImpressionsKey, 0.0),
                  Get(s, CtrKey, 0.0), Get(s, CpcKey, Get(s, AverageCpcKey, 0.0)), Get(s, ConversionsKey, 0.0))
  }

  /** The CTR a platform is ranked by; a summary without one counts as 0. */
  function CtrOf(e: PlatformSummary): real {
    Get(e.summary, CtrKey, 0.0)
  }

  /** A cost per click that may be missing, which ranks as infinitely expensive. */
  datatype Cost = Finite(amount: real) | Unbounded

  /** `a < b` on costs, with infinity below nothing. */
  predicate Cheaper(a: Cost, b: Cost) {
    a.Finite? && (b.Unbounded? || a.amount < b.amount)
  }

  /** The cost per click a platform is ranked by: `cpc`, else `average_cpc`, else infinity. */
  function CpcOf(e: PlatformSummary): Cost {
    if CpcKey in e.summary then Finite(e.summary[CpcKey])
    else if AverageCpcKey in e.summary then Finite(e.summary[AverageCpcKey])
    else Unbounded
  }

  /** `max(platforms, key=ctr, default=None)`: the first platform whose CTR no other exceeds. */
  function BestCtr(ps: seq<PlatformSummary>): (r: Option<nat>)
    ensures r.None? <==> ps == []
    ensures r.Some? ==> r.value < |ps|
    ensures r.Some? ==> forall j :: 0 <= j < |ps| ==> CtrOf(ps[j]) <= CtrOf(ps[r.value])
    ensures r.Some? ==> forall j :: 0 <= j < r.value ==> CtrOf(ps[j]) < CtrOf(ps[r.value])
  {
    if ps == [] then None
    else
      var init := ps[..|ps| - 1];
      var last := |ps| - 1;
      var r := BestCtr(init);
      assert forall j :: 0 <= j < |init| ==> init[j] == ps[j];
      if r.None? then Some(0)
      else if CtrOf(ps[last]) > CtrOf(ps[r.value]) then Some(last)
      else r
  }

  /** `min(platforms, key=cpc, default=None)`: the first platform no other is cheaper than. */
  function LowestCpc(ps: seq<PlatformSummary>): (r: Option<nat>)
    ensures r.None? <==> ps == []
    ensures r.Some? ==> r.value < |ps|
    ensures r.Some? ==> forall j :: 0 <= j < |ps| ==> !Cheaper(CpcOf(ps[j]), CpcOf(ps[r.value]))
    ensures r.Some? ==> forall j :: 0 <= j < r.value ==> Cheaper(CpcOf(ps[r.value]), CpcOf(ps[j]))
  {
    if ps == [] then None
    else
      var init := ps[..|ps| - 1];
      var last := |ps| - 1;
      var r := LowestCpc(init);
      assert forall j :: 0 <= j < |init| ==> init[j] == ps[j];
      if r.None? then Some(0)
      else if Cheaper(CpcOf(ps[last]), CpcOf(ps[r.value])) then Some(last)
      else r
  }

  /** The two recommendations, naming a platform by its key in the report. */
  datatype Recommendation = RaiseBudgetOn(platform: string) | MatchCostEfficiencyOf(platform: string)

  /** The recommendations for a report: none with fewer than two platforms;
      otherwise the best-CTR platform, then the cheapest-click platform, each
      left out when its name is empty. */
  function RecommendationsFor(ps: seq<PlatformSummary>): (recs: seq<Recommendation>)
    ensures |ps| <= 1 ==> recs == []
    ensures |ps| > 1 ==>
              var best, cheapest := ps[BestCtr(ps).value].name, ps[LowestCpc(ps).value].name;
              recs == (if best != "" then [RaiseBudgetOn(best)] else [])
                      + (if cheapest != "" then [MatchCostEfficiencyOf(cheapest)] else [])
  {
    if |ps| <= 1 then []
    else
      var best := ps[BestCtr(ps).value].name;
      var cheapest := ps[LowestCpc(ps).value].name;
      (if best != "" then [RaiseBudgetOn(best)] else []) + (if cheapest != "" then [MatchCostEfficiencyOf(cheapest)] else [])
  }

  /** What `generate_cross_platform_insights` returns. The top performers and
      optimisation opportunities are never filled in. */
  datatype Insights = Insights(platformComparison: seq<(string, ComparisonRow)>,
                               recommendations: seq<Recommendation>,
                               topPerformers: map<string, real>, optimizationOpportunities: seq<string>)

  /** `generate_cross_platform_insights`: one comparison row per platform, in
      the report's order, then the recommendations. */
  method GenerateCrossPlatformInsights(platforms: seq<PlatformSummary>) returns (insights: Insights)
    ensures |insights.platformComparison| == |platforms|
    ensures forall i :: 0 <= i < |platforms| ==>
              insights.platformComparison[i] == (platforms[i].name, ComparisonOf(platforms[i].summary))
    ensures insights.recommendations == RecommendationsFor(platforms)
    ensures insights.topPerformers == map[] && insights.optimizationOpportunities == []
  {
    var comparison: seq<(string, ComparisonRow)> := [];
    var i := 0;
    while i < |platforms|
      invariant 0 <= i <= |platforms|
      invariant |comparison| == i
      invariant forall k :: 0 <= k < i ==> comparison[k] == (platforms[k].name, ComparisonOf(platforms[k].summary))
    {
      comparison := comparison + [(platforms[i].name, ComparisonOf(platforms[i].summary))];
      i := i + 1;
    }
    var recommendations: seq<Recommendation> := [];
    if |platforms| > 1 {
      var best := platforms[BestCtr(platforms).value].name;
      if best != "" {
        recommendations := recommendations + [RaiseBudgetOn(best)];
      }
      var cheapest := platforms[LowestCpc(platforms).value].name;
      if cheapest != "" {
        recommendations := recommendations + [MatchCostEfficiencyOf(cheapest)];
      }
    }
    insights := Insights(comparison, recommendations, map[], []);
  }

  /** A Google report with CTR 2.5 and CPC 1.10 against a Meta report with CTR
      3.1 and CPC 0.95: Meta wins on both counts, so both recommendations name it. */
  lemma RecommendationsExample()
    ensures RecommendationsFor([PlatformSummary("google_ads", map[CtrKey := 2.5, AverageCpcKey := 1.10]),
                                PlatformSummary("meta_ads", map[CtrKey := 3.1, CpcKey := 0.95])])
            == [RaiseBudgetOn("meta_ads"), MatchCostEfficiencyOf("meta_ads")]
  {
    var ps := [PlatformSummary("google_ads", map[CtrKey := 2.5, AverageCpcKey := 1.10]),
               PlatformSummary("meta_ads", map[CtrKey := 3.1, CpcKey := 0.95])];
    assert CtrOf(ps[1]) > CtrOf(ps[0]);
    assert CpcOf(ps[1]) == Finite(0.95);
    assert BestCtr(ps) == Some(1);
    assert LowestCpc(ps) == Some(1);
  }

  /** A platform without any cost per click never wins the cost comparison
      against one that has a cost per click, whatever that cost is. */
  lemma MissingCpcNeverCheapest(ps: seq<PlatformSummary>, i: nat, j: nat)
    requires i < |ps| && j < |ps|
    requires CpcOf(ps[i]).Unbounded? && CpcOf(ps[j]).Finite?
    ensures LowestCpc(ps) != Some(i)
  {
    assert Cheaper(CpcOf(ps[j]), CpcOf(ps[i]));
  }

  class AdsManager {
    const google: G.GoogleAdsIntegration
    const meta: M.MetaAdsIntegration
    /** The platforms found connected by the last check, in visiting order. */
    var connectedPlatforms: seq<Platform>

    /** The cached list agrees with the adapters, and the Meta adapter is in its own valid state. */
    predicate Valid()
      reads this, google, meta
    {
      connectedPlatforms == ConnectedList(google.IsConnected(), meta.IsConnected()) && meta.Valid()
    }

    predicate PlatformConnected(p: Platform)
      reads this, google, meta
    {
      match p
      case GoogleAds => google.IsConnected()
      case MetaAds => meta.IsConnected()
    }

    /** `__init__`: builds both adapters from the same environment, then checks which connected. */
    constructor (env: map<string, string>, googleLoads: bool, metaInits: bool, metaVerifies: bool)
      ensures google.IsConnected() <==> (forall v :: v in G.RequiredVars ==> IsSet(env, v)) && googleLoads
      ensures meta.IsConnected() <==>
                (forall v :: v in M.RequiredVars ==> IsSet(env, v)) && metaInits && metaVerifies
      ensures Valid()
    {
      google := new G.GoogleAdsIntegration(env, googleLoads);
      meta := new M.MetaAdsIntegration(env, metaInits, metaVerifies);
      connectedPlatforms := [];
      new;
      CheckConnections();
    }

    /** `_check_connections`: rebuilds the cached list from the adapters' current state. */
    method CheckConnections()
      requires meta.Valid()
      modifies this
      ensures connectedPlatforms == ConnectedList(google.IsConnected(), meta.IsConnected())
      ensures Valid()
    {
      connectedPlatforms := [];
      if google.IsConnected() {
        connectedPlatforms := connectedPlatforms + [GoogleAds];
      }
      if meta.IsConnected() {
        connectedPlatforms := connectedPlatforms + [MetaAds];
      }
    }

    /** `get_connection_status`: each adapter's live connection and account id,
        the cached list and its length. */
    function GetConnectionStatus(): (s: ConnectionStatus)
      reads this, google, meta
      ensures s.googleConnected == google.IsConnected() && s.metaConnected == meta.IsConnected()
      ensures s.googleAccountId == google.customerId && s.metaAccountId == meta.adAccountId
      ensures s.totalConnected == |s.connectedPlatforms|
      ensures Valid() ==>
                (GoogleAds in s.connectedPlatforms <==> s.googleConnected) &&
                (MetaAds in s.connectedPlatforms <==> s.metaConnected) &&
                s.totalConnected == (if s.googleConnected then 1 else 0) + (if s.metaConnected then 1 else 0)
      ensures Valid() && s.metaConnected ==> s.metaAccountId.Some?
      ensures s.connectedPlatforms == connectedPlatforms
      ensures Valid() ==> s.connectedPlatforms == ConnectedList(s.googleConnected, s.metaConnected)
    {
      ConnectionStatus(google.IsConnected(), google.customerId, meta.IsConnected(), meta.adAccountId,
                       connectedPlatforms, |connectedPlatforms|)
    }

    /** `get_all_campaigns`: Google's campaigns, then Meta's, from the platforms
        that are connected; each connected platform is annotated with its count,
        or with 0 and the error when its fetch raised, independently of the other. */
    method GetAllCampaigns(googleFetch: Call<seq<Campaign>>, metaFetch: Call<seq<Campaign>>)
      returns (r: CampaignsReport)
      ensures r.campaigns == CampaignsFrom(google.IsConnected(), googleFetch) + CampaignsFrom(meta.IsConnected(), metaFetch)
      ensures r.totalCampaigns == |r.campaigns|
      ensures r.platformsConnected == |connectedPlatforms|
      ensures GoogleAds in r.platforms <==> google.IsConnected()
      ensures MetaAds in r.platforms <==> meta.IsConnected()
      ensures GoogleAds in r.platforms ==> r.platforms[GoogleAds] == Annotation(googleFetch)
      ensures MetaAds in r.platforms ==> r.platforms[MetaAds] == Annotation(metaFetch)
      ensures AllTagged(googleFetch, GoogleAds) && AllTagged(metaFetch, MetaAds) ==>
                forall i, j :: 0 <= i < j < |r.campaigns| ==> r.campaigns[i].Tag().Rank() <= r.campaigns[j].Tag().Rank()
    {
      var campaigns: seq<Campaign> := [];
      var platforms: map<Platform, PlatformCampaigns> := map[];
      if google.IsConnected() {
        match googleFetch {
          case Returned(cs) =>
            campaigns := campaigns + cs;
            platforms := platforms[GoogleAds := PlatformCampaigns(|cs|, Fetched)];
          case Raised(e) =>
            platforms := platforms[GoogleAds := PlatformCampaigns(0, FetchFailed(e))];
        }
      }
      if meta.IsConnected() {
        match metaFetch {
          case Returned(cs) =>
            campaigns := campaigns + cs;
            platforms := platforms[MetaAds := PlatformCampaigns(|cs|, Fetched)];
          case Raised(e) =>
            platforms := platforms[MetaAds := PlatformCampaigns(0, FetchFailed(e))];
        }
      }
      if AllTagged(googleFetch, GoogleAds) && AllTagged(metaFetch, MetaAds) {
        MergeKeepsPlatformOrder(google.IsConnected(), googleFetch, meta.IsConnected(), metaFetch);
      }
      r := CampaignsReport(campaigns, platforms, |campaigns|, |connectedPlatforms|);
    }

    /** `get_all_performance_data`: the reports of the platforms that are
        connected and returned one, with totals summed under each platform's
        own key names and averages over the strictly positive CTRs and CPCs. */
    method GetAllPerformanceData(days: int, googleFetch: Call<Option<G.PerformanceReport>>,
                                 metaFetch: Call<Option<M.PerformanceReport>>)
      returns (r: PerformanceData)
      ensures Summarizes(r.summary, GoogleContribution(google.IsConnected(), googleFetch)
                                    + MetaContribution(meta.IsConnected(), metaFetch))
      ensures GoogleAds in r.platforms <==> GoogleContribution(google.IsConnected(), googleFetch) != []
      ensures GoogleAds in r.platforms ==> [r.platforms[GoogleAds]] == GoogleContribution(google.IsConnected(), googleFetch)
      ensures MetaAds in r.platforms <==> MetaContribution(meta.IsConnected(), metaFetch) != []
      ensures MetaAds in r.platforms ==> [r.platforms[MetaAds]] == MetaContribution(meta.IsConnected(), metaFetch)
      ensures r.dateRangeDays == days
    {
      var fromGoogle := GoogleContribution(google.IsConnected(), googleFetch);
      var fromMeta := MetaContribution(meta.IsConnected(), metaFetch);
      var platforms: map<Platform, PlatformPerformance> := map[];
      if fromGoogle != [] {
        platforms := platforms[GoogleAds := fromGoogle[0]];
      }
      if fromMeta != [] {
        platforms := platforms[MetaAds := fromMeta[0]];
      }
      assert GoogleAds in platforms <==> fromGoogle != [];
      assert MetaAds in platforms <==> fromMeta != [];
      var summary := SummarizeReports(fromGoogle + fromMeta);
      r := PerformanceData(platforms, summary, days);
    }

    /** `create_campaign_on_platform`: the named platform's create when it is
        connected, nothing otherwise; the other platform's replies play no part.
        The id the source returns is `CampaignId()` of the result. */
    function CreateCampaignOnPlatform(platform: string, spec: CampaignSpec, googleBudgetReply: Call<string>,
                                      googleCampaignReply: Call<string>, metaReply: Call<string>)
      : (r: Dispatch)
      reads this, google, meta
      ensures r.CampaignId().Some? ==> exists p: Platform :: p.Name() == platform && PlatformConnected(p)
      ensures r.SentToGoogle? <==> platform == GoogleAds.Name() && google.IsConnected()
      ensures r.SentToMeta? <==> platform == MetaAds.Name() && meta.IsConnected()
      ensures r.SentToGoogle? ==> r.googleOutcome == google.CreateCampaign(spec, googleBudgetReply, googleCampaignReply)
      ensures r.SentToMeta? ==> r.metaOutcome == meta.CreateCampaign(spec, metaReply)
    {
      if platform == GoogleAds.Name() && google.IsConnected() then
        SentToGoogle(google.CreateCampaign(spec, googleBudgetReply, googleCampaignReply))
      else if platform == MetaAds.Name() && meta.IsConnected() then
        SentToMeta(meta.CreateCampaign(spec, metaReply))
      else NotSent
    }

    /** `update_campaign_budget`: the named platform's result when it is
        connected, False otherwise. Meta is asked for its default, daily
        update; the Google stub sends nothing. The boolean the source returns
        is `ok` of the result. */
    function UpdateCampaignBudgetOnPlatform(platform: string, campaignId: string, newBudget: real, metaReply: Call<()>)
      : (r: M.Mutation)
      reads this, google, meta
      ensures r.ok ==> exists p: Platform :: p.Name() == platform && PlatformConnected(p)
      ensures platform == GoogleAds.Name() ==> r.request.None? && (r.ok <==> google.IsConnected())
      ensures platform == MetaAds.Name() ==> (r.ok <==> meta.IsConnected() && metaReply.Returned?)
      ensures r.request.Some? <==> platform == MetaAds.Name() && meta.IsConnected()
      ensures r.request.Some? ==>
                r.request.value == M.BudgetUpdate(campaignId, M.DailyBudgetCents(M.ToCents(newBudget)))
    {
      if platform == GoogleAds.Name() && google.IsConnected() then
        M.Mutation(None, google.UpdateCampaignBudget(campaignId, newBudget))
      else if platform == MetaAds.Name() && meta.IsConnected() then
        meta.UpdateCampaignBudget(campaignId, newBudget, M.DailyBudgetType, metaReply)
      else M.Mutation(None, false)
    }

    /** `pause_campaign`: only a connected Meta adapter can pause; the boolean
        the source returns is `ok` of the result. */
    function PauseCampaignOnPlatform(platform: string, campaignId: string, metaReply: Call<()>): (r: M.Mutation)
      reads this, google, meta
      ensures r.ok <==> platform == MetaAds.Name() && meta.IsConnected() && metaReply.Returned?
      ensures r.request.Some? <==> platform == MetaAds.Name() && meta.IsConnected()
      ensures r.request.Some? ==> r.request.value == M.StatusUpdate(campaignId, Paused)
    {
      if platform == MetaAds.Name() && meta.IsConnected() then meta.PauseCampaign(campaignId, metaReply)
      else M.Mutation(None, false)
    }

    /** `resume_campaign`: only a connected Meta adapter can resume; the
        boolean the source returns is `ok` of the result. */
    function ResumeCampaignOnPlatform(platform: string, campaignId: string, metaReply: Call<()>): (r: M.Mutation)
      reads this, google, meta
      ensures r.ok <==> platform == MetaAds.Name() && meta.IsConnected() && metaReply.Returned?
      ensures r.request.Some? <==> platform == MetaAds.Name() && meta.IsConnected()
      ensures r.request.Some? ==> r.request.value == M.StatusUpdate(campaignId, Active)
    {
      if platform == MetaAds.Name() && meta.IsConnected() then meta.ResumeCampaign(campaignId, metaReply)
      else M.Mutation(None, false)
    }

    /** `get_account_info`: one entry per connected platform, holding that
        adapter's answer (None standing for its `{}`). */
    function GetAccountInfo(googleResponse: Call<seq<G.CustomerRow>>, metaResponse: Call<map<string, string>>)
      : (accounts: map<Platform, Option<AccountInfo>>)
      reads this, google, meta
      ensures forall p :: p in accounts <==> PlatformConnected(p)
      ensures Valid() ==> accounts.Keys == set p | p in connectedPlatforms
      ensures GoogleAds in accounts ==> accounts[GoogleAds] == google.GetAccountInfo(googleResponse)
      ensures MetaAds in accounts ==> accounts[MetaAds] == meta.GetAccountInfo(metaResponse)
    {
      var withGoogle: map<Platform, Option<AccountInfo>> :=
        if google.IsConnected() then map[GoogleAds := google.GetAccountInfo(googleResponse)] else map[];
      if meta.IsConnected() then withGoogle[MetaAds := meta.GetAccountInfo(metaResponse)] else withGoogle
    }
  }

  /** Where `create_campaign_on_platform` sent a create, and what that
      adapter's create sent and returned. */
  datatype Dispatch = NotSent | SentToGoogle(googleOutcome: G.CreateOutcome) | SentToMeta(metaOutcome: M.CreateOutcome) {
    /** The campaign id the manager returns. */
    function CampaignId(): Option<string> {
      match this
      case NotSent => None
      case SentToGoogle(outcome) => outcome.campaignId
      case SentToMeta(outcome) => outcome.campaignId
    }
  }

  /** The running state of `get_all_performance_data`: the four totals, the
      positive CTRs and CPCs collected so far, and the platform count. */
  datatype Running = Running(impressions: real, clicks: real, spend: real, conversions: real,
                             ctrs: seq<real>, cpcs: seq<real>, count: int)

  const NoneRunning := Running(0.0, 0.0, 0.0, 0.0, [], [], 0)

  /** The running state after one more platform's report: a rate is collected
      only when positive, after the rates already collected. */
  function Step(running: Running, p: PlatformPerformance): (next: Running)
    ensures next.count == running.count + 1
    ensures next.impressions == running.impressions + p.Value(Impressions)
    ensures next.clicks == running.clicks + p.Value(Clicks)
    ensures next.spend == running.spend + p.Value(Spend)
    ensures next.conversions == running.conversions + p.Value(Conversions)
    ensures |next.ctrs| == |running.ctrs| + (if p.Value(Ctr) > 0.0 then 1 else 0)
    ensures next.ctrs[..|running.ctrs|] == running.ctrs
    ensures |next.ctrs| > |running.ctrs| ==> next.ctrs[|running.ctrs|] == p.Value(Ctr)
    ensures |next.cpcs| == |running.cpcs| + (if p.Value(Cpc) > 0.0 then 1 else 0)
    ensures next.cpcs[..|running.cpcs|] == running.cpcs
    ensures |next.cpcs| > |running.cpcs| ==> next.cpcs[|running.cpcs|] == p.Value(Cpc)
  {
    var ctr, cpc := p.Value(Ctr), p.Value(Cpc);
    Running(running.impressions + p.Value(Impressions), running.clicks + p.Value(Clicks),
            running.spend + p.Value(Spend), running.conversions + p.Value(Conversions),
            running.ctrs + (if ctr > 0.0 then [ctr] else []), running.cpcs + (if cpc > 0.0 then [cpc] else []),
            running.count + 1)
  }

  /** The running state after the given reports, in order: one count per
      report, and at most one collected rate per report, each positive. */
  function Summarize(included: seq<PlatformPerformance>): (running: Running)
    ensures running.count == |included|
    ensures |running.ctrs| <= |included| && |running.cpcs| <= |included|
    ensures forall x :: x in running.ctrs ==> x > 0.0
    ensures forall x :: x in running.cpcs ==> x > 0.0
  {
    if included == [] then NoneRunning
    else Step(Summarize(included[..|included| - 1]), included[|included| - 1])
  }

  lemma SummarizeSnoc(included: seq<PlatformPerformance>, p: PlatformPerformance)
    ensures Summarize(included + [p]) == Step(Summarize(included), p)
  {
    assert (included + [p])[..|included|] == included;
  }

  /** Summarising one more report of a sequence steps from the shorter prefix. */
  lemma SummarizePrefix(reports: seq<PlatformPerformance>, k: int)
    requires 0 <= k < |reports|
    ensures Summarize(reports[..k + 1]) == Step(Summarize(reports[..k]), reports[k])
  {
    assert reports[..k + 1] == reports[..k] + [reports[k]];
    SummarizeSnoc(reports[..k], reports[k]);
  }

  /** Each running total is the sum of its column, each list of rates is the
      column's positive values, and the count is the number of reports. */
  lemma SummarizeIsColumnwise(included: seq<PlatformPerformance>)
    ensures var running := Summarize(included);
            running.impressions == SumOf(Column(included, Impressions)) &&
            running.clicks == SumOf(Column(included, Clicks)) &&
            running.spend == SumOf(Column(included, Spend)) &&
            running.conversions == SumOf(Column(included, Conversions)) &&
            running.ctrs == Positives(Column(included, Ctr)) &&
            running.cpcs == Positives(Column(included, Cpc)) &&
            running.count == |included|
  {
    SummarizeTotals(included);
    SummarizeRates(included);
  }

  lemma {:induction false} SummarizeTotals(included: seq<PlatformPerformance>)
    ensures var running := Summarize(included);
            running.impressions == SumOf(Column(included, Impressions)) &&
            running.clicks == SumOf(Column(included, Clicks)) &&
            running.spend == SumOf(Column(included, Spend)) &&
            running.conversions == SumOf(Column(included, Conversions)) &&
            running.count == |included|
  {
    if included != [] {
      var init, last := included[..|included| - 1], included[|included| - 1];
      assert included == init + [last];
      SummarizeTotals(init);
      ColumnSnoc(init, last, Impressions);
      ColumnSnoc(init, last, Clicks);
      ColumnSnoc(init, last, Spend);
      ColumnSnoc(init, last, Conversions);
    }
  }

  lemma {:induction false} SummarizeRates(included: seq<PlatformPerformance>)
    ensures var running := Summarize(included);
            running.ctrs == Positives(Column(included, Ctr)) &&
            running.cpcs == Positives(Column(included, Cpc))
  {
    if included != [] {
      var init, last := included[..|included| - 1], included[|included| - 1];
      assert included == init + [last];
      SummarizeRates(init);
      ColumnSnoc(init, last, Ctr);
      ColumnSnoc(init, last, Cpc);
    }
  }

  /** `sum(rates) / len(rates)` over the collected rates, or 0 without any, is
      the mean of the positive values of the column. */
  lemma AveragesOfSummary(included: seq<PlatformPerformance>)
    ensures var running := Summarize(included);
            (if running.ctrs != [] then SumOf(running.ctrs) / |running.ctrs| as real else 0.0)
            == MeanOfPositives(Column(included, Ctr)) &&
            (if running.cpcs != [] then SumOf(running.cpcs) / |running.cpcs| as real else 0.0)
            == MeanOfPositives(Column(included, Cpc))
  {
    SummarizeIsColumnwise(included);
  }

  /** The summary figures of `get_all_performance_data`. */
  datatype SummaryFigures = SummaryFigures(totalImpressions: real, totalClicks: real, totalSpend: real,
                                           totalConversions: real, averageCtr: real, averageCpc: real,
                                           platformsCount: int)

  /** The summary figures of the included reports: the platform count, each
      total the sum of its column under each platform's own key names, and
      each average the mean of the strictly positive values of its column. */
  predicate Summarizes(f: SummaryFigures, reports: seq<PlatformPerformance>) {
    f.platformsCount == |reports| &&
    f.totalImpressions == SumOf(Column(reports, Impressions)) &&
    f.totalClicks == SumOf(Column(reports, Clicks)) &&
    f.totalSpend == SumOf(Column(reports, Spend)) &&
    f.totalConversions == SumOf(Column(reports, Conversions)) &&
    f.averageCtr == MeanOfPositives(Column(reports, Ctr)) &&
    f.averageCpc == MeanOfPositives(Column(reports, Cpc))
  }

  /** With both platforms included, spend is Google's `cost` plus Meta's
      `spend`: each platform's total is read under its own key name. */
  lemma SpendUnderOwnKeys(g: G.PerformanceReport, m: M.PerformanceReport)
    ensures SumOf(Column([GooglePerformance(g), MetaPerformance(m)], Spend))
            == Get(g.summary, CostKey, 0.0) + Get(m.summary, SpendKey, 0.0)
  {
    ColumnOfPair(GooglePerformance(g), MetaPerformance(m), Spend);
    SumOfPair(Get(g.summary, CostKey, 0.0), Get(m.summary, SpendKey, 0.0));
  }

  /** With both platforms included and both costs per click positive, the
      average CPC is the mean of Google's `average_cpc` and Meta's `cpc`. */
  lemma CpcAverageUnderOwnKeys(g: G.PerformanceReport, m: M.PerformanceReport)
    requires Get(g.summary, AverageCpcKey, 0.0) > 0.0 && Get(m.summary, CpcKey, 0.0) > 0.0
    ensures MeanOfPositives(Column([GooglePerformance(g), MetaPerformance(m)], Cpc))
            == (g.summary[AverageCpcKey] + m.summary[CpcKey]) / 2.0
  {
    ColumnOfPair(GooglePerformance(g), MetaPerformance(m), Cpc);
    MeanOfTwoPositives(g.summary[AverageCpcKey], m.summary[CpcKey]);
  }

  lemma ColumnOfPair(a: PlatformPerformance, b: PlatformPerformance, metric: Metric)
    ensures Column([a, b], metric) == [a.Value(metric), b.Value(metric)]
  {
    assert [a, b][..1] == [a];
    assert [a][..0] == [];
  }

  /** The average CTR lies within any bounds of the strictly positive CTRs it
      averages, and is 0 exactly when no included platform has a positive CTR. */
  lemma AverageCtrWithinPlatforms(f: SummaryFigures, reports: seq<PlatformPerformance>, lo: real, hi: real)
    requires Summarizes(f, reports)
    requires forall p :: p in reports && p.Value(Ctr) > 0.0 ==> lo <= p.Value(Ctr) <= hi
    ensures (exists p :: p in reports && p.Value(Ctr) > 0.0) ==> lo <= f.averageCtr <= hi
    ensures f.averageCtr == 0.0 <==> forall p :: p in reports ==> p.Value(Ctr) <= 0.0
  {
    var xs := Column(reports, Ctr);
    assert forall x :: x in xs ==> exists p :: p in reports && x == p.Value(Ctr) by {
      forall x | x in xs ensures exists p :: p in reports && x == p.Value(Ctr) {
        var i :| 0 <= i < |xs| && xs[i] == x;
        assert reports[i] in reports;
      }
    }
    assert forall p :: p in reports ==> p.Value(Ctr) in xs by {
      forall p | p in reports ensures p.Value(Ctr) in xs {
        var i :| 0 <= i < |reports| && reports[i] == p;
        assert xs[i] == p.Value(Ctr);
      }
    }
    if exists p :: p in reports && p.Value(Ctr) > 0.0 {
      MeanOfPositivesWithin(xs, lo, hi);
    }
  }

  /** Adds each gathered report to the summary in turn, then averages the
      collected rates. */
  method SummarizeReports(reports: seq<PlatformPerformance>) returns (f: SummaryFigures)
    ensures Summarizes(f, reports)
  {
    var running := NoneRunning;
    var k := 0;
    while k < |reports|
      invariant 0 <= k <= |reports|
      invariant running == Summarize(reports[..k])
    {
      SummarizePrefix(reports, k);
      running := AddToSummary(running, reports[k]);
      k := k + 1;
    }
    assert reports[..k] == reports;
    assert running == Summarize(reports);
    FiguresSummarize(reports);
    f := FiguresOf(running);
  }

  /** The figures of a running state: its totals and count, and each average
      `sum(rates) / len(rates)` over the collected rates, or 0 without any. */
  function FiguresOf(running: Running): SummaryFigures {
    var averageCtr := if running.ctrs != [] then SumOf(running.ctrs) / |running.ctrs| as real else 0.0;
    var averageCpc := if running.cpcs != [] then SumOf(running.cpcs) / |running.cpcs| as real else 0.0;
    SummaryFigures(running.impressions, running.clicks, running.spend, running.conversions,
                   averageCtr, averageCpc, running.count)
  }

  /** The figures of the running state after all reports summarise them. */
  lemma FiguresSummarize(reports: seq<PlatformPerformance>)
    ensures Summarizes(FiguresOf(Summarize(reports)), reports)
  {
    SummarizeIsColumnwise(reports);
    AveragesOfSummary(reports);
  }

  /** The "add to summary" step for one platform's report: its totals under its
      own key names, its CTR and CPC when positive, and one more platform. */
  method AddToSummary(running: Running, data: PlatformPerformance) returns (next: Running)
    ensures next == Step(running, data)
  {
    var ctr, cpc := data.Value(Ctr), data.Value(Cpc);
    next := Running(running.impressions + data.Value(Impressions), running.clicks + data.Value(Clicks),
                    running.spend + data.Value(Spend), running.conversions + data.Value(Conversions),
                    running.ctrs, running.cpcs, running.count + 1);
    if ctr > 0.0 {
      next := next.(ctrs := next.ctrs + [ctr]);
    }
    if cpc > 0.0 {
      next := next.(cpcs := next.cpcs + [cpc]);
    }
  }

  /** Google's campaigns come before Meta's in the merged list, whichever
      platforms are connected and whichever fetches raised. */
  lemma MergeKeepsPlatformOrder(googleConnected: bool, googleFetch: Call<seq<Campaign>>,
                                metaConnected: bool, metaFetch: Call<seq<Campaign>>)
    requires AllTagged(googleFetch, GoogleAds) && AllTagged(metaFetch, MetaAds)
    ensures var cs := CampaignsFrom(googleConnected, googleFetch) + CampaignsFrom(metaConnected, metaFetch);
            forall i, j :: 0 <= i < j < |cs| ==> cs[i].Tag().Rank() <= cs[j].Tag().Rank()
  {
    var a, b := CampaignsFrom(googleConnected, googleFetch), CampaignsFrom(metaConnected, metaFetch);
    var cs := a + b;
    forall i, j | 0 <= i < j < |cs|
      ensures cs[i].Tag().Rank() <= cs[j].Tag().Rank()
    {
      if j < |a| {
        assert cs[i] in a && cs[j] in a;
      } else if i >= |a| {
        assert cs[i] == b[i - |a|] && cs[j] == b[j - |a|];
      } else {
        assert cs[i] == a[i] && cs[j] == b[j - |a|];
      }
    }
  }
}
