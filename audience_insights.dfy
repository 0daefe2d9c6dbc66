/** The two deterministic audience helpers: the simulated noise filter, which
    removes fixed shares of an audience, and the targeting recommendations
    built from a structured insights document with fixed budget shares,
    conditional sections and defaults. */
module AudienceInsights {
  import opened AdsCommon

  /** The audience size assumed for the arithmetic when `total_users` is absent. */
  const AssumedAudienceSize := 1000

  /** The kinds of noise the filter removes, in the order it reports them. */
  datatype NoiseKind = BotTraffic | IrrelevantUsers | LowEngagement

  /** One entry of `removed_segments`: the kind and the number of users removed. */
  datatype RemovedSegment = RemovedSegment(kind: NoiseKind, users: int)

  datatype QualityMetrics = QualityMetrics(botFilterApplied: bool, relevanceFilterApplied: bool,
                                           engagementFilterApplied: bool, qualityImprovementPercent: real)

  datatype FilteredSummary = FilteredSummary(size: int, qualityScore: real, estimatedEngagementLiftPercent: real)

  /** What `filter_audience_noise` returns. */
  datatype FilteredAudience = FilteredAudience(originalSize: int, filteredSize: int, qualityScore: real,
                                               removedSegments: seq<RemovedSegment>,
                                               qualityMetrics: QualityMetrics, filteredAudience: FilteredSummary)

  function Min(a: real, b: real): real {
    if a <= b then a else b
  }

  /** `filter_audience_noise`: reports the given size (0 when absent) but
      filters a size that defaults to 1000. It removes 15% as bots, 20% as
      irrelevant and 10% as barely engaged, each truncated to whole users, and
      keeps the truncated remaining 55%, at a quality score of 1 - 0.45 + 0.2
      that does not depend on the input. The quality threshold is accepted and never read. */
  function FilterAudienceNoise(totalUsers: Option<int>, qualityThreshold: real): (r: FilteredAudience)
    ensures r.originalSize == totalUsers.GetOr(0)
    ensures var n := totalUsers.GetOr(AssumedAudienceSize) as real;
            0.0 <= n ==> r.filteredSize as real <= n * 0.55 < r.filteredSize as real + 1.0
    ensures r.qualityScore == 0.75
    ensures |r.removedSegments| == 3
    ensures r.removedSegments[0].kind == BotTraffic && r.removedSegments[1].kind == IrrelevantUsers
            && r.removedSegments[2].kind == LowEngagement
    ensures r.filteredAudience.size == r.filteredSize && r.filteredAudience.qualityScore == r.qualityScore
  {
    var n := totalUsers.GetOr(AssumedAudienceSize) as real;
    var botReduction, irrelevantUserReduction, lowEngagementReduction := 0.15, 0.20, 0.10;
    var totalReduction := botReduction + irrelevantUserReduction + lowEngagementReduction;
    var filteredSize := Trunc(n * (1.0 - totalReduction));
    var qualityScore := Min(1.0, 1.0 - totalReduction + 0.2);
    FilteredAudience(
      totalUsers.GetOr(0),
      filteredSize,
      qualityScore,
      [RemovedSegment(BotTraffic, Trunc(n * botReduction)),
       RemovedSegment(IrrelevantUsers, Trunc(n * irrelevantUserReduction)),
       RemovedSegment(LowEngagement, Trunc(n * lowEngagementReduction))],
      QualityMetrics(true, true, true, (qualityScore - 0.5) * 100.0),
      FilteredSummary(filteredSize, qualityScore, qualityScore * 100.0 - 50.0))
  }

  /** The users kept and the users removed never add up to more than the
      audience filtered, and truncation loses fewer than four users in all. */
  lemma FilterAccountsForEveryone(totalUsers: Option<int>, qualityThreshold: real)
    requires totalUsers.GetOr(AssumedAudienceSize) >= 0
    ensures var r := FilterAudienceNoise(totalUsers, qualityThreshold);
            var n := totalUsers.GetOr(AssumedAudienceSize);
            var accounted := r.filteredSize + r.removedSegments[0].users + r.removedSegments[1].users
                             + r.removedSegments[2].users;
            n - 4 < accounted <= n
  {
    var n := totalUsers.GetOr(AssumedAudienceSize);
    var x := n as real;
    TruncatedParts(n, x * 0.55, x * 0.15, x * 0.20, x * 0.10);
  }

  /** Truncating four non-negative parts of a whole number loses less than one from each. */
  lemma TruncatedParts(n: int, a: real, b: real, c: real, d: real)
    requires 0.0 <= a && 0.0 <= b && 0.0 <= c && 0.0 <= d
    requires a + b + c + d == n as real
    ensures n - 4 < Trunc(a) + Trunc(b) + Trunc(c) + Trunc(d) <= n
  {
  }

  /** Without `total_users` the report says the audience had 0 users, yet 550 remain after filtering. */
  lemma MissingTotalUsers(qualityThreshold: real)
    ensures FilterAudienceNoise(None, qualityThreshold).originalSize == 0
    ensures FilterAudienceNoise(None, qualityThreshold).filteredSize == 550
  {
    var r := FilterAudienceNoise(None, qualityThreshold);
    assert 550.0 <= 1000.0 * 0.55 < 551.0;
  }

  /** The insights document's `engagement_optimization` section; absent entries are empty. */
  datatype EngagementOptimization = EngagementOptimization(channelPreferences: seq<string>,
                                                           interactionPatterns: string,
                                                           contentPreferences: seq<string>,
                                                           communicationStyle: string)

  /** The parts of the insights document the recommendations read. Each
      behavioural segment is a dictionary of text fields; an absent section is empty. */
  datatype AudienceReport = AudienceReport(behavioralSegmentation: map<string, map<string, string>>,
                                           engagementOptimization: EngagementOptimization)

  const HighValueSegmentKey := "high_value_segment"
  const GrowthSegmentKey := "growth_segment"
  const DescriptionKey := "description"
  const DefaultPrimaryFocus := "High-value segment"
  const DefaultSecondaryFocus := "Growth potential segment"
  const TargetingApproach := "Tiered targeting with budget prioritization"
  const SuccessMetrics: seq<string> := ["Engagement rate", "Conversion quality", "Customer lifetime value"]
  const DefaultContentTypes: seq<string> := ["Educational content", "Behind-the-scenes", "User-generated content"]
  const DefaultMessagingTone := "Professional yet approachable"

  /** The number of channel preferences carried over as primary channels. */
  const PrimaryChannelCount := 3

  datatype TargetingStrategy = TargetingStrategy(primaryFocus: string, secondaryFocus: string,
                                                 targetingApproach: string, successMetrics: seq<string>)

  /** One share of the campaign budget: its percentage and its amount. */
  datatype BudgetShare = BudgetShare(percentage: int, amount: real)

  datatype BudgetAllocation = BudgetAllocation(highValueSegment: BudgetShare, growthSegment: BudgetShare,
                                               testingBudget: BudgetShare)

  datatype ChannelRecommendations = ChannelRecommendations(primaryChannels: seq<string>)

  datatype TimingOptimization = TimingOptimization(engagementTiming: string)

  datatype CreativeGuidance = CreativeGuidance(contentTypes: seq<string>, messagingTone: string)

  /** What `generate_precision_targeting_recommendations` returns; an empty
      section (`{}`) is None. */
  datatype TargetingRecommendations = TargetingRecommendations(
    targetingStrategy: Option<TargetingStrategy>,
    budgetAllocation: Option<BudgetAllocation>,
    channelRecommendations: Option<ChannelRecommendations>,
    timingOptimization: Option<TimingOptimization>,
    creativeGuidance: CreativeGuidance)

  /** `segments.get(name, {}).get('description', default)`. */
  function SegmentDescription(segments: map<string, map<string, string>>, name: string, default: string): string {
    if name in segments && DescriptionKey in segments[name] then segments[name][DescriptionKey] else default
  }

  /** The 60/30/10 split of a budget. */
  function SplitBudget(budget: real): (a: BudgetAllocation)
    ensures a.highValueSegment.percentage + a.growthSegment.percentage + a.testingBudget.percentage == 100
    ensures a.highValueSegment.amount + a.growthSegment.amount + a.testingBudget.amount == budget
    ensures forall share :: share in [a.highValueSegment, a.growthSegment, a.testingBudget] ==>
              share.amount * 100.0 == budget * share.percentage as real
  {
    BudgetAllocation(BudgetShare(60, budget * 0.6), BudgetShare(30, budget * 0.3), BudgetShare(10, budget * 0.1))
  }

  /** `generate_precision_targeting_recommendations`. A budget counts only when
      given and non-zero, and a segmentation only when it has an entry. */
  function GenerateRecommendations(report: AudienceReport, campaignBudget: Option<real>): (r: TargetingRecommendations)
    ensures r.targetingStrategy.Some? <==> report.behavioralSegmentation != map[]
    ensures r.targetingStrategy.Some? ==>
              r.targetingStrategy.value.primaryFocus
                == SegmentDescription(report.behavioralSegmentation, HighValueSegmentKey, DefaultPrimaryFocus) &&
              r.targetingStrategy.value.secondaryFocus
                == SegmentDescription(report.behavioralSegmentation, GrowthSegmentKey, DefaultSecondaryFocus)
    ensures r.budgetAllocation.Some? <==>
              campaignBudget.Some? && campaignBudget.value != 0.0 && report.behavioralSegmentation != map[]
    ensures r.budgetAllocation.Some? ==> r.budgetAllocation.value == SplitBudget(campaignBudget.value)
    ensures var prefs := report.engagementOptimization.channelPreferences;
            (r.channelRecommendations.Some? <==> prefs != []) &&
            (r.channelRecommendations.Some? ==>
               var primary := r.channelRecommendations.value.primaryChannels;
               |primary| == (if |prefs| < PrimaryChannelCount then |prefs| else PrimaryChannelCount) &&
               primary == prefs[..|primary|])
    ensures r.timingOptimization.Some? <==> report.engagementOptimization.interactionPatterns != ""
    ensures r.timingOptimization.Some? ==>
              r.timingOptimization.value.engagementTiming == report.engagementOptimization.interactionPatterns
    ensures var content := report.engagementOptimization.contentPreferences;
            r.creativeGuidance.contentTypes == if content != [] then content else DefaultContentTypes
    ensures var style := report.engagementOptimization.communicationStyle;
            r.creativeGuidance.messagingTone == if style != "" then style else DefaultMessagingTone
  {
    var segments := report.behavioralSegmentation;
    var engagement := report.engagementOptimization;
    var strategy :=
      if segments != map[] then
        Some(TargetingStrategy(SegmentDescription(segments, HighValueSegmentKey, DefaultPrimaryFocus),
                               SegmentDescription(segments, GrowthSegmentKey, DefaultSecondaryFocus),
                               TargetingApproach, SuccessMetrics))
      else None;
    var budgetTruthy := campaignBudget.Some? && campaignBudget.value != 0.0;
    var allocation := if budgetTruthy && segments != map[] then Some(SplitBudget(campaignBudget.value)) else None;
    var prefs := engagement.channelPreferences;
    var channels :=
      if prefs != [] then
        Some(ChannelRecommendations(if |prefs| >= PrimaryChannelCount then prefs[..PrimaryChannelCount] else prefs))
      else None;
    var timing :=
      if engagement.interactionPatterns != "" then Some(TimingOptimization(engagement.interactionPatterns)) else None;
    var creative := CreativeGuidance(
      if engagement.contentPreferences != [] then engagement.contentPreferences else DefaultContentTypes,
      if engagement.communicationStyle != "" then engagement.communicationStyle else DefaultMessagingTone);
    TargetingRecommendations(strategy, allocation, channels, timing, creative)
  }
}
