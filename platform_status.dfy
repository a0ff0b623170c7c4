/** The platform status dashboard (src/pages/PlatformStatus.tsx): headline
    figures aggregated over the list of operational pages, and the colour and
    icon of a page's status. */
module PlatformStatus {
  import opened Wrappers

  datatype StatusPage = StatusPage(name: string, path: string, status: string,
                                   features: seq<string>, completion: int)

  /** The dashboard's list of pages. */
  const OperationalPages: seq<StatusPage> := [
    StatusPage("Support Center", "/support", "operational",
               ["Live Chat", "FAQ Database", "Community Forum", "Ticket System"], 100),
    StatusPage("Notifications", "/notifications", "operational",
               ["Real-time Updates", "Preference Management", "Multi-channel Delivery"], 100),
    StatusPage("Reviews & Ratings", "/reviews", "operational",
               ["Rating System", "Review Moderation", "Analytics Dashboard"], 100),
    StatusPage("System Health", "/system-health", "operational",
               ["Real-time Monitoring", "Performance Metrics", "Alert Management"], 100),
    StatusPage("API Documentation", "/api-docs", "operational",
               ["Interactive Docs", "SDK Examples", "API Testing"], 100),
    StatusPage("Reports & Analytics", "/reports", "operational",
               ["Custom Reports", "Data Visualization", "Export Options"], 100),
    StatusPage("User Onboarding", "/onboarding", "operational",
               ["Learning Paths", "Achievement System", "Progress Tracking"], 100),
    StatusPage("Settings & Configuration", "/settings", "operational",
               ["User Settings", "System Config", "Security Settings"], 100),
    StatusPage("Analytics Dashboard", "/analytics", "operational",
               ["AI Insights", "Market Intelligence", "Predictive Analytics"], 100)
  ]

  // ---------------------------------------------------------------------
  // Aggregates
  // ---------------------------------------------------------------------

  function FeatureCount(page: StatusPage): int { |page.features| }

  function Completion(page: StatusPage): int { page.completion }

  /** `pages.reduce((acc, page) => acc + f(page), acc)`: a left fold. */
  function Reduce(pages: seq<StatusPage>, acc: int, f: StatusPage -> int): int {
    if pages == [] then acc else Reduce(pages[1..], acc + f(pages[0]), f)
  }

  /** Reference definition of the total of `f` over `pages`, summed from the
      last page backwards. */
  function Sum(pages: seq<StatusPage>, f: StatusPage -> int): int {
    if pages == [] then 0 else Sum(pages[..|pages| - 1], f) + f(pages[|pages| - 1])
  }

  lemma {:induction false} SumCons(pages: seq<StatusPage>, f: StatusPage -> int)
    requires pages != []
    ensures Sum(pages, f) == f(pages[0]) + Sum(pages[1..], f)
  {
    if |pages| > 1 {
      SumCons(pages[..|pages| - 1], f);
      assert pages[..|pages| - 1][1..] == pages[1..][..|pages[1..]| - 1];
    }
  }

  /** The fold computes the total, whatever the starting accumulator. */
  lemma {:induction false} ReduceIsSum(pages: seq<StatusPage>, acc: int, f: StatusPage -> int)
    ensures Reduce(pages, acc, f) == acc + Sum(pages, f)
  {
    if pages != [] {
      ReduceIsSum(pages[1..], acc + f(pages[0]), f);
      SumCons(pages, f);
    }
  }

  /** The "Features Implemented" figure, also printed in the closing summary
      paragraph: the number of features of all pages together. */
  function FeaturesImplemented(pages: seq<StatusPage>): (total: int)
    ensures total == Sum(pages, FeatureCount)
  {
    ReduceIsSum(pages, 0, FeatureCount);
    Reduce(pages, 0, FeatureCount)
  }

  /** `Math.round(sum / count)` for a positive count: the nearest integer,
      halves rounded up. */
  function RoundedMean(sum: int, count: int): (mean: int)
    requires count > 0
    ensures 2 * count * mean <= 2 * sum + count < 2 * count * mean + 2 * count
  {
    (2 * sum + count) / (2 * count)
  }

  /** The "Average Completion" figure; `None` for an empty list, where the
      source divides 0 by 0 and shows "NaN%". */
  function AverageCompletion(pages: seq<StatusPage>): (avg: Option<int>)
    ensures avg.Some? <==> pages != []
    ensures pages != [] ==> avg.value == RoundedMean(Sum(pages, Completion), |pages|)
  {
    ReduceIsSum(pages, 0, Completion);
    if pages == [] then None
    else Some(RoundedMean(Reduce(pages, 0, Completion), |pages|))
  }

  /** The headline figures of the dashboard. */
  datatype Stats = Stats(operationalPages: nat, averageCompletion: Option<int>, featuresImplemented: int)

  function PlatformStats(pages: seq<StatusPage>): (stats: Stats)
    ensures stats.operationalPages == |pages|
    ensures stats.featuresImplemented == Sum(pages, FeatureCount)
    ensures stats.averageCompletion.Some? <==> pages != []
    ensures pages != [] ==> stats.averageCompletion.value == RoundedMean(Sum(pages, Completion), |pages|)
  {
    Stats(|pages|, AverageCompletion(pages), FeaturesImplemented(pages))
  }

  /** When every value of `f` lies in [lo, hi], the total lies between
      `count * lo` and `count * hi`. */
  lemma {:induction false} SumBounds(pages: seq<StatusPage>, f: StatusPage -> int, lo: int, hi: int)
    requires forall i :: 0 <= i < |pages| ==> lo <= f(pages[i]) <= hi
    ensures |pages| * lo <= Sum(pages, f) <= |pages| * hi
  {
    if pages != [] {
      var init := pages[..|pages| - 1];
      assert forall i :: 0 <= i < |init| ==> init[i] == pages[i];
      SumBounds(init, f, lo, hi);
      assert |pages| * lo == |init| * lo + lo;
      assert |pages| * hi == |init| * hi + hi;
    }
  }

  lemma MulMonotone(a: int, b: int, c: int)
    requires a <= b && c >= 0
    ensures a * c <= b * c
  {
  }

  /** The rounded mean of values within [lo, hi] is within [lo, hi]. */
  lemma RoundedMeanBounds(sum: int, count: int, lo: int, hi: int)
    requires count > 0 && count * lo <= sum <= count * hi
    ensures lo <= RoundedMean(sum, count) <= hi
  {
    var m := RoundedMean(sum, count);
    var d := 2 * count;
    assert d * m <= 2 * sum + count < d * m + d;
    if m > hi {
      MulMonotone(hi + 1, m, d);
      assert false;
    }
    if m < lo {
      MulMonotone(m + 1, lo, d);
      assert false;
    }
  }

  /** The average completion lies between the lowest and highest completion;
      in particular it is 100 when every page is complete. */
  lemma AverageCompletionBounds(pages: seq<StatusPage>, lo: int, hi: int)
    requires pages != []
    requires forall i :: 0 <= i < |pages| ==> lo <= pages[i].completion <= hi
    ensures lo <= AverageCompletion(pages).value <= hi
  {
    ReduceIsSum(pages, 0, Completion);
    SumBounds(pages, Completion, lo, hi);
    RoundedMeanBounds(Sum(pages, Completion), |pages|, lo, hi);
  }

  /** The dashboard's first two figures as listed: nine pages, all complete. */
  lemma DashboardCompletion()
    ensures PlatformStats(OperationalPages).operationalPages == 9
    ensures PlatformStats(OperationalPages).averageCompletion == Some(100)
  {
    AverageCompletionBounds(OperationalPages, 100, 100);
  }

  /** The dashboard's feature figure as listed: 28 features. */
  lemma DashboardFeatures()
    ensures PlatformStats(OperationalPages).featuresImplemented == 28
  {
    var pages := OperationalPages;
    SumCons(pages, FeatureCount);
    SumCons(pages[1..], FeatureCount);
    SumCons(pages[2..], FeatureCount);
    SumCons(pages[3..], FeatureCount);
    SumCons(pages[4..], FeatureCount);
    SumCons(pages[5..], FeatureCount);
    SumCons(pages[6..], FeatureCount);
    SumCons(pages[7..], FeatureCount);
    SumCons(pages[8..], FeatureCount);
  }

  // ---------------------------------------------------------------------
  // Status classifiers
  // ---------------------------------------------------------------------

  const OperationalColor: string := "bg-green-100 text-green-700 border-green-200"
  const DegradedColor: string := "bg-yellow-100 text-yellow-700 border-yellow-200"
  const DownColor: string := "bg-red-100 text-red-700 border-red-200"
  const UnknownColor: string := "bg-gray-100 text-gray-700 border-gray-200"

  predicate IsKnownStatus(status: string) {
    status == "operational" || status == "degraded" || status == "down"
  }

  /** The badge colours of a page status; grey for any other status. */
  function StatusColor(status: string): (color: string)
    ensures !IsKnownStatus(status) ==> color == UnknownColor
  {
    match status
    case "operational" => OperationalColor
    case "degraded" => DegradedColor
    case "down" => DownColor
    case _ => UnknownColor
  }

  datatype Icon = CheckCircle | AlertTriangle | Clock

  /** The icon of a page status: a warning for both degraded and down, a
      clock for any other status. */
  function StatusIcon(status: string): (icon: Icon)
    ensures icon == Clock <==> !IsKnownStatus(status)
    ensures icon == CheckCircle <==> status == "operational"
  {
    match status
    case "operational" => CheckCircle
    case "degraded" => AlertTriangle
    case "down" => AlertTriangle
    case _ => Clock
  }

  /** The four statuses get four different colours, and the colour tells
      apart what the icon does: the same icon means the same colour except
      for degraded and down, which share the warning icon. */
  lemma StatusColorsDistinct(s: string, t: string)
    ensures s != t && (IsKnownStatus(s) || IsKnownStatus(t)) ==> StatusColor(s) != StatusColor(t)
    ensures StatusIcon("degraded") == StatusIcon("down")
    ensures StatusColor(s) == UnknownColor <==> StatusIcon(s) == Clock
  {
    assert OperationalColor[3] == 'g' && DegradedColor[3] == 'y' && DownColor[3] == 'r' && UnknownColor[3] == 'g';
    assert OperationalColor[4] == 'r' && UnknownColor[4] == 'r';
    assert OperationalColor[5] == 'e' && UnknownColor[5] == 'a';
  }
}
