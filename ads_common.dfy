/** Values shared by the two platform adapters, the aggregator and the helpers:
    optional values, the outcome of a call into code outside the model, the
    platform tags, the normalised campaign and account records, and the few
    Python built-ins the core leans on (int() on a float, list filtering,
    sum/len means, str.split). */
module AdsCommon {

  datatype Option<+T> = None | Some(value: T) {
    /** `d.get(key, default)` once the lookup has produced this option. */
    function GetOr(default: T): T {
      match this
      case Some(v) => v
      case None => default
    }
  }

  /** What a call into code the model does not see did: it returned a value,
      or it raised an exception carrying a message. */
  datatype Call<+T> = Returned(value: T) | Raised(error: string)

  /** The two advertising platforms, in the fixed order the aggregator visits them. */
  datatype Platform = GoogleAds | MetaAds {
    /** The platform's key in every dictionary the aggregator returns. */
    function Name(): string {
      match this
      case GoogleAds => "google_ads"
      case MetaAds => "meta_ads"
    }

    /** Position in the aggregator's visiting order. */
    function Rank(): nat {
      match this
      case GoogleAds => 0
      case MetaAds => 1
    }
  }

  /** A campaign as an adapter lists it. Google fields come from typed SDK rows;
      Meta fields come from `campaign.get(key)`, so each may be absent. */
  datatype Campaign =
    | GoogleCampaign(id: string, name: string, status: string, channelType: string,
                     startDate: string, endDate: string)
    | MetaCampaign(metaId: Option<string>, metaName: Option<string>, metaStatus: Option<string>,
                   objective: Option<string>, createdTime: Option<string>, startTime: Option<string>,
                   stopTime: Option<string>, dailyBudget: Option<string>, lifetimeBudget: Option<string>)
  {
    /** The `platform` field every record carries. */
    function Tag(): Platform {
      if GoogleCampaign? then GoogleAds else MetaAds
    }
  }

  /** Account metadata as an adapter reports it. */
  datatype AccountInfo =
    | GoogleAccount(id: string, name: string, currency: string, timezone: string, status: string)
    | MetaAccount(metaId: Option<string>, metaName: Option<string>, metaStatus: Option<string>,
                  metaCurrency: Option<string>, metaTimezone: Option<string>,
                  businessName: Option<string>, spendCap: Option<string>)

  /** The keys of a performance summary dictionary. Google names spend `cost` and
      cost per click `average_cpc`; Meta names them `spend` and `cpc`. */
  const ImpressionsKey := "impressions"
  const ClicksKey := "clicks"
  const CostKey := "cost"
  const SpendKey := "spend"
  const ConversionsKey := "conversions"
  const CtrKey := "ctr"
  const AverageCpcKey := "average_cpc"
  const CpcKey := "cpc"
  const ConversionRateKey := "conversion_rate"
  const CostPerConversionKey := "cost_per_conversion"

  /** The entries of a `campaign_data` dictionary that the adapters read; each key may be absent. */
  datatype CampaignSpec = CampaignSpec(name: Option<string>, objective: Option<string>,
                                       dailyBudget: Option<real>, lifetimeBudget: Option<real>)

  /** The delivery status an adapter writes to a campaign. */
  datatype CampaignStatus = Paused | Active

  /** A reporting window as day numbers: `end_date - timedelta(days=days)`. */
  datatype DateRange = DateRange(startDate: int, endDate: int)

  function Window(today: int, days: int): (d: DateRange)
    ensures d.endDate == today
    ensures d.endDate - d.startDate == days
  {
    DateRange(today - days, today)
  }

  /** Python's int() on a float: truncation toward zero. */
  function Trunc(x: real): (n: int)
    ensures 0.0 <= x ==> n as real <= x < n as real + 1.0
    ensures x < 0.0 ==> n as real - 1.0 < x <= n as real
  {
    if x >= 0.0 then x.Floor else -((-x).Floor)
  }

  /** An amount that is already a whole number survives int() unchanged. */
  lemma TruncOfWhole(k: int)
    ensures Trunc(k as real) == k
  {
    var n := Trunc(k as real);
    if k >= 0 {
      assert n as real <= k as real < n as real + 1.0;
    } else {
      assert n as real - 1.0 < k as real <= n as real;
    }
  }

  /** `d.get(key, default)` on a dictionary of numbers. */
  function Get(m: map<string, real>, key: string, default: real): real {
    if key in m then m[key] else default
  }

  /** `sub` is `s` with some elements left out, the rest in their original order. */
  ghost predicate IsSubsequence<T>(sub: seq<T>, s: seq<T>) {
    if sub == [] then true
    else if s == [] then false
    else (sub[0] == s[0] && IsSubsequence(sub[1..], s[1..])) || IsSubsequence(sub, s[1..])
  }

  /** `[n for n in names if not isSet(n)]`: the names that are missing, in the order given. */
  function MissingNames(names: seq<string>, isSet: string -> bool): (missing: seq<string>)
    ensures forall n :: n in missing <==> n in names && !isSet(n)
    ensures IsSubsequence(missing, names)
    ensures missing == [] <==> forall n :: n in names ==> isSet(n)
  {
    if names == [] then []
    else
      var rest := MissingNames(names[1..], isSet);
      assert forall n :: n in names <==> n == names[0] || n in names[1..];
      if isSet(names[0]) then rest else [names[0]] + rest
  }

  /** A credential counts as given only when its variable is set to a non-empty
      value (the truthiness of `os.getenv(name)`). */
  predicate IsSet(env: map<string, string>, name: string) {
    name in env && env[name] != ""
  }

  /** `sum(xs)`, adding from the left. */
  function SumOf(xs: seq<real>): real {
    if xs == [] then 0.0 else SumOf(xs[..|xs| - 1]) + xs[|xs| - 1]
  }

  /** The strictly positive elements of `xs`, in order. */
  function Positives(xs: seq<real>): (ps: seq<real>)
    ensures forall x :: x in ps <==> x in xs && x > 0.0
    ensures |ps| <= |xs|
  {
    if xs == [] then []
    else
      var init := xs[..|xs| - 1];
      assert xs == init + [xs[|xs| - 1]];
      Positives(init) + (if xs[|xs| - 1] > 0.0 then [xs[|xs| - 1]] else [])
  }

  /** `sum(ps) / len(ps)` over the strictly positive values, and 0 when there are none. */
  function MeanOfPositives(xs: seq<real>): (m: real)
    ensures m >= 0.0
    ensures m > 0.0 <==> exists x :: x in xs && x > 0.0
  {
    var ps := Positives(xs);
    if ps == [] then
      assert forall x :: x in xs && x > 0.0 ==> x in ps;
      0.0
    else
      assert ps[0] in ps;
      SumOfPositivesIsPositive(ps);
      QuotientWithin(SumOf(ps), |ps| as real, 0.0, SumOf(ps));
      SumOf(ps) / |ps| as real
  }

  lemma {:induction false} SumOfPositivesIsPositive(xs: seq<real>)
    requires xs != []
    requires forall x :: x in xs ==> x > 0.0
    ensures SumOf(xs) > 0.0
  {
    var init := xs[..|xs| - 1];
    assert forall x :: x in init ==> x in xs;
    assert xs[|xs| - 1] in xs;
    if init != [] {
      SumOfPositivesIsPositive(init);
    }
  }

  /** A sum of n values that are each at least lo is at least n * lo. */
  lemma {:induction false} SumAtLeast(xs: seq<real>, lo: real)
    requires forall x :: x in xs ==> lo <= x
    ensures |xs| as real * lo <= SumOf(xs)
  {
    if xs != [] {
      var init := xs[..|xs| - 1];
      assert forall x :: x in init ==> x in xs;
      SumAtLeast(init, lo);
      assert xs[|xs| - 1] in xs;
      assert |xs| as real * lo == |init| as real * lo + lo;
    }
  }

  /** A sum of n values that are each at most hi is at most n * hi. */
  lemma {:induction false} SumAtMost(xs: seq<real>, hi: real)
    requires forall x :: x in xs ==> x <= hi
    ensures SumOf(xs) <= |xs| as real * hi
  {
    if xs != [] {
      var init := xs[..|xs| - 1];
      assert forall x :: x in init ==> x in xs;
      SumAtMost(init, hi);
      assert xs[|xs| - 1] in xs;
      assert |xs| as real * hi == |init| as real * hi + hi;
    }
  }

  /** The mean of the positive values lies between any bounds of those values:
      a cross-platform average is never outside the per-platform range. */
  lemma MeanOfPositivesWithin(xs: seq<real>, lo: real, hi: real)
    requires exists x :: x in xs && x > 0.0
    requires forall x :: x in xs && x > 0.0 ==> lo <= x <= hi
    ensures lo <= MeanOfPositives(xs) <= hi
  {
    var ps := Positives(xs);
    PositivesNonEmpty(xs);
    PositivesWithin(xs, lo, hi);
    MeanOfNonEmptyPositives(xs);
    SumWithin(ps, lo, hi);
  }

  lemma PositivesNonEmpty(xs: seq<real>)
    requires exists x :: x in xs && x > 0.0
    ensures Positives(xs) != []
  {
    var x :| x in xs && x > 0.0;
    assert x in Positives(xs);
  }

  lemma PositivesWithin(xs: seq<real>, lo: real, hi: real)
    requires forall x :: x in xs && x > 0.0 ==> lo <= x <= hi
    ensures forall p :: p in Positives(xs) ==> lo <= p <= hi
  {
  }

  lemma MeanOfNonEmptyPositives(xs: seq<real>)
    requires Positives(xs) != []
    ensures MeanOfPositives(xs) == SumOf(Positives(xs)) / |Positives(xs)| as real
  {
  }

  /** The mean of a non-empty sequence lies between any bounds of its elements. */
  lemma SumWithin(ps: seq<real>, lo: real, hi: real)
    requires ps != []
    requires forall p :: p in ps ==> lo <= p <= hi
    ensures lo <= SumOf(ps) / |ps| as real <= hi
  {
    var n := |ps| as real;
    SumAtLeast(ps, lo);
    SumAtMost(ps, hi);
    QuotientWithin(SumOf(ps), n, lo, hi);
  }

  lemma SumOfPair(x: real, y: real)
    ensures SumOf([x, y]) == x + y
  {
    assert [x, y][..1] == [x];
    assert [x][..0] == [];
    assert SumOf([x]) == x;
  }

  /** The mean of two positive values is their midpoint. */
  lemma MeanOfTwoPositives(x: real, y: real)
    requires x > 0.0 && y > 0.0
    ensures MeanOfPositives([x, y]) == (x + y) / 2.0
  {
    assert [x, y][..1] == [x];
    assert [x][..0] == [];
    assert Positives([x]) == [x];
    var ps := Positives([x, y]);
    assert ps == [x, y];
    SumOfPair(x, y);
    assert MeanOfPositives([x, y]) == SumOf(ps) / |ps| as real;
  }

  lemma QuotientWithin(total: real, n: real, lo: real, hi: real)
    requires n > 0.0
    requires n * lo <= total <= n * hi
    ensures lo <= total / n <= hi
  {
    var q := total / n;
    assert q * n == total;
    assert n * (q - lo) >= 0.0;
    assert n * (hi - q) >= 0.0;
  }

  /** `s.split('/')[-1]`: the text after the last slash, or all of `s` when it has none. */
  function LastSegment(s: string): (seg: string)
    ensures '/' !in seg
    ensures |seg| <= |s| && seg == s[|s| - |seg|..]
    ensures |seg| < |s| ==> s[|s| - |seg| - 1] == '/'
  {
    if s == [] then []
    else if s[|s| - 1] == '/' then []
    else
      var init := s[..|s| - 1];
      var seg := LastSegment(init);
      assert s == init + [s[|s| - 1]];
      seg + [s[|s| - 1]]
  }
}
