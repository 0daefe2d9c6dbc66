# NovaEdge Media advertising core, modelled in Dafny

This project models the advertising-data layer of the NovaEdge Media marketing
dashboard. It also models two deterministic audience helpers and the request checks
of the report endpoint. It proves properties of that model.

- **Platform adapters** (`GoogleAds`, `MetaAds`).
  - Each adapter is a class whose constructor checks the credentials in the
    environment and decides whether the adapter is connected.
  - Every operation returns its empty value (`[]`, `{}`, `None`, `False`)
    when the adapter is disconnected.
  - Google converts micros to currency units and fractions to percentages.
  - Meta writes budgets in cents and normalises its ad account id to the
    `act_` form.
  - Both fold the metric rows of a reporting window into a per-campaign
    dictionary and a summary. A derived rate (`ctr`, `average_cpc`/`cpc`,
    `conversion_rate`, `cost_per_conversion`) is present only when its
    denominator is positive.
- **Unified manager** (`Aggregation`).
  - `AdsManager` keeps the cached list of connected platforms, always Google
    before Meta.
  - It merges campaign listings and annotates each platform with its count, or
    with its error when the fetch raised.
  - It sums performance totals under each platform's own key names (`cost` and
    `average_cpc` for Google, `spend` and `cpc` for Meta).
  - It averages CTR and CPC over the strictly positive values only.
  - It dispatches create, update, pause and resume by platform name, and
    collects account information.
  - It builds the cross-platform comparison and its two recommendations:
    - highest CTR, where a missing CTR counts as 0;
    - cheapest click, where a missing CPC counts as infinitely expensive.
- **Audience helpers** (`AudienceInsights`).
  - The noise filter removes fixed shares of an audience.
  - The targeting recommendations apply a 60/30/10 budget split, conditional
    sections and default texts.
- **Report request checks** (`ReportRequest`).
  - Python truthiness decides which required fields are missing.
  - Missing fields are reported first, then the budget is checked, then the
    duration.

Outside effects become parameters:
- Every remote SDK call is a `Call<T>` input: the value it returned, or the
  exception it raised.
- The environment is a `map<string, string>`.
- Today's date is an integer day number.
- Python's `float`/`int` parsing of text is passed to the request checks as
  a function.

The Python dictionaries with optional derived keys are `map<string, real>`, so
"present only when" is literal key presence. The manager's per-platform
dictionaries are maps keyed by `Platform`, whose visiting order is fixed.

The operations that write to a platform return what they sent along with
the value the source returns: the manager's create returns where it sent
the create and that adapter's outcome, whose `CampaignId()` is the returned
id, and its updates return the Meta update sent, if any, with the boolean
as `ok`.

Behaviour worth knowing:
- A platform's CPC of exactly 0 is not treated as infinitely expensive when
  choosing the cheapest platform. Only a missing `cpc`/`average_cpc` key is.
- Meta `spend` is never converted from cents when read. Cents appear only in
  what is written.
- When Meta's verifying account read raises, `ad_account_id` stays set. Only
  the API handle is cleared, so the adapter reports disconnected while still
  exposing an account id.
- `platforms_connected` in the campaign listing is the length of the cached
  list from the last check, not a fresh check.

## Model

| member | source | states |
|---|---|---|
| AdsCommon.Trunc | integrations/google_ads_integration.py:209 | Python `int()` on a float truncates toward zero: the result is within one below a non-negative input and within one above a negative input |
| AdsCommon.MissingNames | integrations/google_ads_integration.py:32 | the missing names are exactly the listed names that fail the test, in their listed order, and the list is empty iff every name passes |
| AdsCommon.MeanOfPositives | integrations/ads_manager.py:164-168 | the average over the strictly positive values is non-negative, and positive iff some value is positive (0 when none is) |
| AdsCommon.MeanOfPositivesWithin | integrations/ads_manager.py:164-168 | a cross-platform average lies within any lower and upper bound of the values it averages |
| AdsCommon.LastSegment | integrations/google_ads_integration.py:233 | `split('/')[-1]` is the longest slash-free suffix: it has no `/`, ends the text, and is preceded by a `/` unless it is the whole text |
| AdsCommon.Window | integrations/google_ads_integration.py:112-113 | the reporting window ends today and its start is `days` before its end |
| GoogleAds.MissingVars | integrations/google_ads_integration.py:24-35 | the missing credentials are exactly the unset or empty ones among the five, in the order checked; none is missing iff all five are set |
| GoogleAds.CampaignOf | integrations/google_ads_integration.py:80-88 | every listed campaign is tagged `google_ads` |
| GoogleAds.Normalize | integrations/google_ads_integration.py:150-159 | cost and average CPC times 1,000,000 give back the micros; CTR and conversion rate divided by 100 give back the fractions; counts are unchanged |
| GoogleAds.TotalsPositiveIffSomeRow | integrations/google_ads_integration.py:141-174 | with no negative counts the impressions and clicks totals are never negative, and each is positive exactly when some row's count is, so the rates over them are reported exactly when some row has any |
| GoogleAds.ByCampaign | integrations/google_ads_integration.py:149-161 | the per-campaign dictionary has at most one entry per row |
| GoogleAds.TotalsOfConcat | integrations/google_ads_integration.py:141-167 | the totals are additive over any split of the rows, so every row counts once, even when campaign ids repeat |
| GoogleAds.ByCampaignHasRowIds | integrations/google_ads_integration.py:149-161 | every campaign id in the rows has an entry in the per-campaign dictionary |
| GoogleAds.ByCampaignOnlyRowIds | integrations/google_ads_integration.py:149-161 | every entry of the per-campaign dictionary is keyed by the campaign id of some row |
| GoogleAds.ByCampaignKeepsLastRow | integrations/google_ads_integration.py:149-161 | the entry for a campaign id holds the last row with that id, normalised: later rows overwrite earlier ones |
| GoogleAds.SummaryOf | integrations/google_ads_integration.py:169-174 | the summary keys are the four totals plus `ctr` iff impressions > 0 and `average_cpc`, `conversion_rate` iff clicks > 0; each rate times its denominator gives back its numerator |
| GoogleAds.BudgetMicros | integrations/google_ads_integration.py:209 | the budget in micros is the daily budget (1000 by default) times 1,000,000, truncated |
| GoogleAds.MicrosRoundTrip | integrations/google_ads_integration.py:209 | a daily budget read back from a whole number of micros converts to exactly those micros |
| GoogleAds.GoogleAdsIntegration.constructor | integrations/google_ads_integration.py:14-44 | the client is loaded, and the customer id set, iff all five credentials are set and loading does not raise; connected iff both hold; the adapter starts valid |
| GoogleAds.GoogleAdsIntegration.IsConnected | integrations/google_ads_integration.py:46-48 | in a valid adapter (the customer id is read only once the client loaded, from a set credential) connected is the same as client loaded, and a connected adapter has a non-empty customer id |
| GoogleAds.GoogleAdsIntegration.GetCampaigns | integrations/google_ads_integration.py:50-101 | one tagged campaign per row, in order, when connected and the search returned; `[]` when disconnected or it raised |
| GoogleAds.GoogleAdsIntegration.GetCampaignPerformance | integrations/google_ads_integration.py:103-194 | when connected and the search returned: the summary of the totals over all rows, the per-campaign dictionary of the rows, and the window ending today; `{}` otherwise |
| GoogleAds.GoogleAdsIntegration.CreateCampaign | integrations/google_ads_integration.py:196-242 | no mutation without a connection or a name; otherwise a budget named "<name> Budget" in micros, then a PAUSED campaign linked to the returned budget, and the id, present iff both calls returned, is the last path segment of the created resource name (empty when that name ends in `/`); any raise yields None |
| GoogleAds.GoogleAdsIntegration.UpdateCampaignBudget | integrations/google_ads_integration.py:244-257 | the update is acknowledged iff the adapter is connected; nothing is sent |
| GoogleAds.GoogleAdsIntegration.GetAccountInfo | integrations/google_ads_integration.py:259-298 | the first customer row's fields iff connected and the search returned a row; `{}` otherwise |
| MetaAds.MissingVars | integrations/meta_ads_integration.py:28-40 | the missing credentials are exactly the unset or empty ones among the four, in the order token, app id, app secret, account id |
| MetaAds.NormalizeAccountId | integrations/meta_ads_integration.py:50 | the result always starts with `act_`, is the id or `act_` + id, and leaves an id already starting with `act_` unchanged |
| MetaAds.NormalizeAccountIdIdempotent | integrations/meta_ads_integration.py:50 | normalising the account id twice is normalising it once |
| MetaAds.ToCents | integrations/meta_ads_integration.py:253 | cents are the amount times 100, truncated toward zero |
| MetaAds.CentsRoundTrip | integrations/meta_ads_integration.py:283 | an amount read back from a whole number of cents converts to exactly those cents |
| MetaAds.CampaignOf | integrations/meta_ads_integration.py:88-101 | every listed campaign is tagged `meta_ads`, and each of its nine fields (id, name, status, objective, created, start and stop time, daily and lifetime budget) is whatever the object holds under that key, absent when it holds none |
| MetaAds.ScopeOf | integrations/meta_ads_integration.py:124-170 | insights are asked for one campaign iff a non-empty campaign id is given, and for the whole account otherwise |
| MetaAds.NormalizeDefaults | integrations/meta_ads_integration.py:181-190 | an insight row without a campaign name reads as "Unknown", every missing count or amount (impressions, clicks, spend, ctr, cpc, conversions, cost per conversion) reads as 0, and present fields are taken as they are |
| MetaAds.ConversionRateOfRow | integrations/meta_ads_integration.py:192-196 | a row's conversion rate times its clicks is 100 times its conversions when it has clicks, and the rate is 0 otherwise |
| MetaAds.TotalsPositiveIffSomeRow | integrations/meta_ads_integration.py:180-213 | with no negative counts (absent counts read as 0) the impressions and clicks totals are never negative, and each is positive exactly when some row's count is, so the rates over them are reported exactly when some row has any |
| MetaAds.ByCampaign | integrations/meta_ads_integration.py:180-198 | the per-campaign dictionary has at most one entry per row |
| MetaAds.TotalsOfConcat | integrations/meta_ads_integration.py:172-204 | the totals are additive over any split of the rows, so every row counts once |
| MetaAds.ByCampaignHasRowIds | integrations/meta_ads_integration.py:180-198 | every campaign id in the rows has an entry in the per-campaign dictionary, rows without an id sharing one entry |
| MetaAds.ByCampaignOnlyRowIds | integrations/meta_ads_integration.py:180-198 | every entry of the per-campaign dictionary is keyed by the campaign id (or the absence of one) of some row |
| MetaAds.ByCampaignKeepsLastRow | integrations/meta_ads_integration.py:180-198 | the entry for a campaign id holds the last row with that id, normalised: later rows overwrite earlier ones |
| MetaAds.SummaryOf | integrations/meta_ads_integration.py:206-213 | the summary keys are the four totals plus `ctr` iff impressions > 0, `cpc` and `conversion_rate` iff clicks > 0, and `cost_per_conversion` iff conversions > 0; each rate times its denominator gives back its numerator |
| MetaAds.InitialBudget | integrations/meta_ads_integration.py:250-258 | a new campaign gets the daily budget in cents when one is given, else the lifetime budget in cents, else no budget |
| MetaAds.MetaAdsIntegration.constructor | integrations/meta_ads_integration.py:17-63 | the `act_`-normalised account id is set iff all four credentials are set and initialisation does not raise; the API handle also needs the verifying read to succeed; connected iff all of these hold |
| MetaAds.MetaAdsIntegration.IsConnected | integrations/meta_ads_integration.py:65-67 | in a valid adapter connected is the same as the API handle being set, and a connected adapter holds an account id in `act_` form |
| MetaAds.MetaAdsIntegration.GetCampaigns | integrations/meta_ads_integration.py:69-111 | one tagged campaign per object, in order, when connected and the listing returned; `[]` otherwise |
| MetaAds.MetaAdsIntegration.GetCampaignPerformance | integrations/meta_ads_integration.py:113-233 | when connected, the insights query is sent with the scope of the campaign id (one campaign iff a non-empty id, else the account) and nothing is asked otherwise; when connected and the insights call returned: the summary of the totals over all rows, the per-campaign dictionary of the rows, and the window ending today; `{}` otherwise |
| MetaAds.MetaAdsIntegration.CreateCampaign | integrations/meta_ads_integration.py:235-271 | nothing is sent without a connection or a name; otherwise a PAUSED campaign under the `act_` account id, with the given objective or LINK_CLICKS and the initial budget, and the id is the one returned |
| MetaAds.MetaAdsIntegration.UpdateCampaignBudget | integrations/meta_ads_integration.py:273-298 | the new budget in cents goes to the daily field iff the type is "daily", to the lifetime field otherwise; the result is true iff connected and the update did not raise |
| MetaAds.MetaAdsIntegration.PauseCampaign | integrations/meta_ads_integration.py:300-319 | when connected, the campaign's status is set to paused; the result is true iff connected and the update did not raise |
| MetaAds.MetaAdsIntegration.ResumeCampaign | integrations/meta_ads_integration.py:321-340 | when connected, the campaign's status is set to active; the result is true iff connected and the update did not raise |
| MetaAds.MetaAdsIntegration.GetAccountInfo | integrations/meta_ads_integration.py:342-374 | the account's fields iff connected and the read returned; `{}` otherwise |
| Aggregation.ConnectedList | integrations/ads_manager.py:21-34 | each platform is in the list iff it is connected, and Google comes before Meta |
| Aggregation.Annotation | integrations/ads_manager.py:62-94 | a connected platform is marked connected iff its fetch returned, with the number of campaigns it contributed (0 when the fetch raised) |
| Aggregation.GoogleContribution | integrations/ads_manager.py:118-139 | Google contributes a report iff it is connected and its fetch returned a non-empty report, and then exactly one: that report, tagged Google |
| Aggregation.MetaContribution | integrations/ads_manager.py:141-162 | Meta contributes a report iff it is connected and its fetch returned a non-empty report, and then exactly one: that report, tagged Meta |
| Aggregation.Column | integrations/ads_manager.py:126-135 | one value per included report, in order, each read under that platform's own key with missing keys as 0 |
| Aggregation.ComparisonOf | integrations/ads_manager.py:232-242 | a comparison row takes spend from `spend`, else `cost`, else 0, and cpc from `cpc`, else `average_cpc`, else 0 |
| Aggregation.BestCtr | integrations/ads_manager.py:247-251 | the best-CTR platform has a CTR no platform exceeds (missing counts as 0), and every earlier platform's CTR is strictly lower, so ties go to the first |
| Aggregation.LowestCpc | integrations/ads_manager.py:260-264 | no platform is cheaper than the chosen one (a missing CPC is infinitely expensive), and the chosen one is strictly cheaper than every earlier platform |
| Aggregation.RecommendationsFor | integrations/ads_manager.py:244-270 | no recommendation with fewer than two platforms; otherwise raise-budget on the best-CTR platform, then match-cost-efficiency of the cheapest, each dropped when its name is empty |
| Aggregation.GenerateCrossPlatformInsights | integrations/ads_manager.py:220-272 | one comparison row per platform in report order, the recommendations for the report, and top performers and optimisation opportunities left empty |
| Aggregation.RecommendationsExample | integrations/ads_manager.py:244-270 | with Google at CTR 2.5, CPC 1.10 and Meta at CTR 3.1, CPC 0.95, both recommendations name `meta_ads` |
| Aggregation.MissingCpcNeverCheapest | integrations/ads_manager.py:260-264 | a platform with no cost per click is never chosen as cheapest while another platform has one |
| Aggregation.AdsManager.constructor | integrations/ads_manager.py:12-19 | both adapters are built from the same environment, each connected iff its own credentials and calls succeed, and the cached list agrees with them |
| Aggregation.AdsManager.CheckConnections | integrations/ads_manager.py:21-34 | the cached list is rebuilt to hold exactly the connected platforms, Google first |
| Aggregation.AdsManager.GetConnectionStatus | integrations/ads_manager.py:36-49 | the live connection flags and account ids, and the cached list unchanged with `total_connected` equal to its length; in a valid manager that list is exactly the connected platforms, Google first |
| Aggregation.AdsManager.GetAllCampaigns | integrations/ads_manager.py:51-97 | the merged list is Google's returned campaigns followed by Meta's, with `total_campaigns` its length; exactly the connected platforms are annotated, each independently; campaigns appear in platform order |
| Aggregation.MergeKeepsPlatformOrder | integrations/ads_manager.py:62-94 | whichever platforms are connected and whichever fetches raised, no Meta campaign precedes a Google campaign in the merged list |
| Aggregation.AdsManager.GetAllPerformanceData | integrations/ads_manager.py:99-170 | a platform's report is kept iff it is connected and returned a non-empty report; the summary figures are those of exactly the kept reports; the requested number of days is echoed |
| Aggregation.SummarizeReports | integrations/ads_manager.py:115-168 | the count is the number of reports, each total is the sum of its column under each platform's own key names, and each average is the mean of the strictly positive values of its column |
| Aggregation.FiguresSummarize | integrations/ads_manager.py:115-168 | the figures taken from the running state after all the reports (its totals, its count, and `sum/len` of the collected rates or 0) summarise those reports |
| Aggregation.Step | integrations/ads_manager.py:125-137 | one included platform adds its impressions, clicks, spend and conversions (under its own key names) to the totals and one to the count, and its own CTR and CPC are appended to the collected rates exactly when positive, the earlier rates kept in order |
| Aggregation.Summarize | integrations/ads_manager.py:115-160 | after all included platforms the count is their number, at most one rate of each kind is collected per platform, and every collected rate is positive |
| Aggregation.AddToSummary | integrations/ads_manager.py:125-137 | one platform adds its totals, its CTR and CPC only when positive, and one to the platform count |
| Aggregation.SummarizeIsColumnwise | integrations/ads_manager.py:115-160 | after the running additions each total is the sum of its column, each collected rate list is the column's positive values in order, and the count is the number of reports |
| Aggregation.AveragesOfSummary | integrations/ads_manager.py:164-168 | `sum/len` over the collected rates, or 0 with none, is the mean of the positive values of the column |
| Aggregation.SpendUnderOwnKeys | integrations/ads_manager.py:129-152 | with both platforms included, total spend is Google's `cost` plus Meta's `spend` |
| Aggregation.CpcAverageUnderOwnKeys | integrations/ads_manager.py:132-168 | with both platforms included and both costs per click positive, the average CPC is the midpoint of Google's `average_cpc` and Meta's `cpc` |
| Aggregation.AverageCtrWithinPlatforms | integrations/ads_manager.py:164-166 | the average CTR lies within any bounds of the positive per-platform CTRs, and is 0 iff no included platform has a positive CTR |
| Aggregation.AdsManager.CreateCampaignOnPlatform | integrations/ads_manager.py:172-180 | the create goes to Google iff the name is `google_ads` and Google is connected, to Meta iff it is `meta_ads` and Meta is connected, and nowhere otherwise; what is sent and the id returned are that adapter's create, so a campaign id comes only from a connected platform with that name |
| Aggregation.AdsManager.UpdateCampaignBudgetOnPlatform | integrations/ads_manager.py:182-190 | true only for a connected, named platform: for Google iff connected, with nothing sent; for Meta iff connected and the update did not raise; an update is sent iff the platform is a connected Meta, and it writes the new budget in cents to the daily field of that campaign |
| Aggregation.AdsManager.PauseCampaignOnPlatform | integrations/ads_manager.py:192-198 | a PAUSED status for that campaign is sent iff the platform is `meta_ads` and Meta is connected; true iff, in addition, the update did not raise |
| Aggregation.AdsManager.ResumeCampaignOnPlatform | integrations/ads_manager.py:200-206 | an ACTIVE status for that campaign is sent iff the platform is `meta_ads` and Meta is connected; true iff, in addition, the update did not raise |
| Aggregation.AdsManager.GetAccountInfo | integrations/ads_manager.py:208-218 | the keys are exactly the connected platforms (in a valid manager, the cached list), each holding that adapter's answer |
| AudienceInsights.FilterAudienceNoise | utils/audience_insights.py:185-241 | the reported original size is `total_users` or 0; the filtered size is 55% of `total_users` (or of 1000), truncated; the quality score is 0.75 whatever the input; three removed segments in the order bots, irrelevant users, low engagement |
| AudienceInsights.FilterAccountsForEveryone | utils/audience_insights.py:211-227 | kept and removed users together never exceed the audience filtered, and fall short of it by fewer than four |
| AudienceInsights.MissingTotalUsers | utils/audience_insights.py:198-216 | without `total_users`, the original size is reported as 0 while 550 users remain after filtering |
| AudienceInsights.SplitBudget | utils/audience_insights.py:286-303 | the percentages sum to 100, the amounts sum to the budget, and each amount is its percentage of the budget |
| AudienceInsights.GenerateRecommendations | utils/audience_insights.py:248-333 | a targeting strategy iff the segmentation is non-empty (with default descriptions); a budget split iff the budget is non-zero and the segmentation non-empty; primary channels are the first min(3, n) preferences, present iff any; timing iff patterns are given; creative guidance always, with default content types and tone |
| ReportRequest.Validate | app.py:49-92 | each answer holds exactly when every earlier check passed and its own failed: no data for a falsy body; missing fields, in the required order, for falsy values; then a budget that is not a number or not positive; then a duration likewise; otherwise the parsed positive budget and duration; the status is 500 exactly for a truthy body that is not an object, 400 for every other rejection |
| ReportRequest.ToFloat | app.py:68 | `float()` fails exactly on null, lists, objects and unparsable text; a number is kept as it is, and a boolean becomes 1 or 0 |
| ReportRequest.ToInt | app.py:82 | `int()` fails exactly on null, lists, objects and unparsable text; a number is truncated toward zero, and a boolean becomes 1 or 0 |
| ReportRequest.FalsyBudgetIsMissing | app.py:57-73 | a budget of 0 (or any falsy budget) is reported as a missing field, never as a non-positive budget |
| ReportRequest.BudgetCheckedBeforeDuration | app.py:66-92 | when the budget is rejected, changing the duration never changes the answer |
| ReportRequest.FractionalDurationRejected | app.py:80-92 | a duration strictly between 0 and 1 passes the presence check but is rejected as not positive after truncation |
| ReportRequest.MissingFieldsInRequiredOrder | app.py:57-64 | a body with only a name, objectives and a zero budget is told target_audience, budget, duration are missing, in that order |

## Left out

- The remote SDK calls (Google Ads client and searches, Meta Graph API objects and requests) are inputs. Their query texts, pagination and the SDK's own types are not modelled.
- Environment access, the clock and logging: credentials are a map, today is a day number, and log messages are dropped.
- The adapters' rows are assumed already typed. Meta converts insight fields with `int()`/`float()` on text; a field that fails conversion raises and makes the call return `{}`. That parsing is not modelled: a failing parse is a `Raised` response.
- GoogleAds.GoogleAdsIntegration.GetCampaignPerformance: the optional `campaign_id` filter only changes the query text, whose answer is an input, so it is not a parameter.
- Aggregation.AdsManager.GetAllCampaigns, Aggregation.AdsManager.GetAllPerformanceData: the adapters catch their own exceptions. A `Raised` outcome models the manager's own defensive `except` branch.
- A `campaign_data` key that is present with the value `None` (which makes the budget arithmetic raise) is not distinguished from an absent key.
- The human-readable texts are not modelled: recommendation sentences with `replace('_', ' ').title()`, rationale and strategy strings, removed-segment wording, and the `:,` and `:.1f` number formatting. Recommendations are datatypes naming the platform key.
- AudienceInsights.FilterAudienceNoise: `quality_threshold` is accepted and never read by the source; the model takes it and ignores it. A non-numeric `total_users` (which raises) is not modelled.
- AudienceInsights.GenerateRecommendations: the `smart_targeting` section is read and never used by the source. Behavioural segments that are not dictionaries (which raise) are not modelled.
- ReportRequest.Validate: the whole text of the 500 answer for a truthy body that is not an object (its fixed prefix and `str(e)` of the raised exception) is not modelled; `NotAnObject` stands for it. A malformed JSON body, wrong content type and non-finite numbers (`Infinity`, `NaN`) are not modelled. Numbers are unbounded reals, so an integer budget too large for a float, which makes `float()` raise OverflowError past the `except (ValueError, TypeError)` into the outer 500 answer, is Accepted here; likewise a duration that is an infinite float, for which `int()` raises OverflowError. The texts of the 400 error messages are not modelled: each rejection is a datatype naming its reason.
- The rest of app.py (routes, database session add/commit/rollback, report generation through OpenAI), utils/openai_api.py, the rest of utils/audience_insights.py, models.py, api/index.py and static/js/app.js are not part of this model.
- IEEE-754 floating point: money, rates and percentages are exact reals, so 0.15 + 0.20 + 0.10 is exactly 0.45 here. No claim is made about bit-level agreement with Python floats.
- Python's dictionary insertion order for the insights input is modelled by a sequence of platform entries. The manager's own per-platform dictionaries are maps whose order (Google, then Meta) is fixed by the `Platform` type.
