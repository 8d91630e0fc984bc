/** scripts/performance-test.js: the `PerformanceMonitor` that compares the
    vanilla and the anime.js deployments and turns the difference into advice
    and a recommendation. */
module PerformanceTest {
  import opened JsRuntime

  /** One entry of `results`: still `{}`, the measurement `testLoadTime`
      resolved with, or `{ error, type }` when the request failed. */
  datatype TestResult =
    | Pending
    | Measured(loadTime: int, bundleSize: nat, hasAnimejs: bool, animationCount: nat, kind: string)
    | Failed(error: string, kind: string)

  /** `result.error`, None when absent. */
  function ErrorOf(r: TestResult): (e: Option<string>)
    ensures e.Some? <==> r.Failed?
  {
    if r.Failed? then Some(r.error) else None
  }

  /** A truthy `result.error`. */
  predicate TruthyError(r: TestResult) {
    var e := ErrorOf(r);
    e.Some? && e.value != ""
  }

  /** `anime.loadTime - vanilla.loadTime`; None is `NaN`, which is what the
      subtraction gives when either side has no `loadTime`. */
  function LoadDiff(vanilla: TestResult, anime: TestResult): (d: Option<int>)
    ensures d.Some? <==> vanilla.Measured? && anime.Measured?
    ensures d.Some? ==> anime.loadTime == vanilla.loadTime + d.value
  {
    if vanilla.Measured? && anime.Measured? then Some(anime.loadTime - vanilla.loadTime) else None
  }

  /** `anime.bundleSize - vanilla.bundleSize`, None for `NaN`. */
  function SizeDiff(vanilla: TestResult, anime: TestResult): (d: Option<int>)
    ensures d.Some? <==> vanilla.Measured? && anime.Measured?
    ensures d.Some? ==> anime.bundleSize == vanilla.bundleSize + d.value
  {
    if vanilla.Measured? && anime.Measured? then Some(anime.bundleSize - vanilla.bundleSize) else None
  }

  /** `d < bound` and `d > bound`; every comparison with `NaN` is false. */
  predicate Below(d: Option<int>, bound: int) { d.Some? && d.value < bound }
  predicate Above(d: Option<int>, bound: int) { d.Some? && d.value > bound }

  datatype Recommendation = AnimeJs | Vanilla | ManualReview {
    /** The string `saveResults` writes. */
    function Name(): string {
      match this
      case AnimeJs => "anime.js"
      case Vanilla => "vanilla"
      case ManualReview => "manual_review_needed"
    }

    /** How far from adopting anime.js the recommendation is. */
    function Caution(): nat {
      match this
      case AnimeJs => 0
      case ManualReview => 1
      case Vanilla => 2
    }
  }

  /** The decision rule of `getRecommendation`. */
  function RecommendationFor(loadDiff: Option<int>, sizeDiff: Option<int>): (r: Recommendation)
    ensures r == AnimeJs <==> Below(loadDiff, 200) && Below(sizeDiff, 100000)
    ensures r == Vanilla <==>
              !(Below(loadDiff, 200) && Below(sizeDiff, 100000)) && (Above(loadDiff, 500) || Above(sizeDiff, 200000))
    ensures r.Name() in {"anime.js", "vanilla", "manual_review_needed"}
  {
    if Below(loadDiff, 200) && Below(sizeDiff, 100000) then AnimeJs
    else if Above(loadDiff, 500) || Above(sizeDiff, 200000) then Vanilla
    else ManualReview
  }

  /** A deployment that is no slower and no larger is recommended. */
  lemma NoCostMeansAnimeJs(loadDiff: int, sizeDiff: int)
    requires loadDiff <= 0 && sizeDiff <= 0
    ensures RecommendationFor(Some(loadDiff), Some(sizeDiff)) == AnimeJs
  {
  }

  /** 300 ms slower at the same size falls between the two rules. */
  lemma SlowerButSmallNeedsReview()
    ensures RecommendationFor(Some(300), Some(0)) == ManualReview
  {
  }

  /** A slower or larger anime.js build never makes the recommendation more
      favourable to it. */
  lemma RecommendationMonotone(load1: int, size1: int, load2: int, size2: int)
    requires load1 <= load2 && size1 <= size2
    ensures RecommendationFor(Some(load1), Some(size1)).Caution() <= RecommendationFor(Some(load2), Some(size2)).Caution()
  {
  }

  /** Without numbers to compare the rule asks for a review. */
  lemma MissingNumbersNeedReview(loadDiff: Option<int>, sizeDiff: Option<int>)
    requires loadDiff.None? || sizeDiff.None?
    requires loadDiff.None? || loadDiff.value <= 500
    requires sizeDiff.None? || sizeDiff.value <= 200000
    ensures RecommendationFor(loadDiff, sizeDiff) == ManualReview
  {
  }

  // ---------------------------------------------------------------------------
  // generateRecommendations

  /** The four conditional lines of `generateRecommendations`; the decision
      framework after them is printed unconditionally. */
  datatype Advice = MinimalImpact | SignificantLoadIncrease | LargeBundleIncrease | EnhancedAnimations {
    /** The block that prints the line: impact, then bundle, then capabilities. */
    function Block(): nat {
      match this
      case MinimalImpact => 0
      case SignificantLoadIncrease => 0
      case LargeBundleIncrease => 1
      case EnhancedAnimations => 2
    }
  }

  /** `anime.animationCount > vanilla.animationCount * 1.5`, exactly, in
      integers. */
  predicate RicherAnimations(vanilla: TestResult, anime: TestResult) {
    vanilla.Measured? && anime.Measured? && 2 * anime.animationCount > 3 * vanilla.animationCount
  }

  function GenerateRecommendations(vanilla: TestResult, anime: TestResult,
                                   loadDiff: Option<int>, sizeDiff: Option<int>): (advice: seq<Advice>)
    ensures MinimalImpact in advice <==> Below(loadDiff, 100) && Below(sizeDiff, 50000)
    ensures SignificantLoadIncrease in advice <==>
              !(Below(loadDiff, 100) && Below(sizeDiff, 50000)) && Above(loadDiff, 500)
    ensures LargeBundleIncrease in advice <==> Above(sizeDiff, 100000)
    ensures EnhancedAnimations in advice <==> RicherAnimations(vanilla, anime)
    ensures |advice| <= 3
    ensures forall i, j :: 0 <= i < j < |advice| ==> advice[i].Block() < advice[j].Block()
  {
    var impact :=
      if Below(loadDiff, 100) && Below(sizeDiff, 50000) then [MinimalImpact]
      else if Above(loadDiff, 500) then [SignificantLoadIncrease]
      else [];
    var bundle := if Above(sizeDiff, 100000) then [LargeBundleIncrease] else [];
    var richer := if RicherAnimations(vanilla, anime) then [EnhancedAnimations] else [];
    impact + bundle + richer
  }

  /** The minimal-impact and the significant-load lines never appear together. */
  lemma ImpactLinesExclusive(vanilla: TestResult, anime: TestResult, loadDiff: Option<int>, sizeDiff: Option<int>)
    ensures var advice := GenerateRecommendations(vanilla, anime, loadDiff, sizeDiff);
            !(MinimalImpact in advice && SignificantLoadIncrease in advice)
  {
  }

  // ---------------------------------------------------------------------------
  // The monitor

  /** What `generateReport` ends with: the failure line, or the comparison with
      its advice and the recommendation `saveResults` records. */
  datatype Report =
    | TestFailed(error: string)
    | Compared(loadDiff: Option<int>, sizeDiff: Option<int>, advice: seq<Advice>, recommendation: Recommendation)

  class PerformanceMonitor {
    var vanilla: TestResult
    var anime: TestResult

    /** `results` starts with two empty objects. */
    constructor ()
      ensures vanilla == Pending && anime == Pending
    {
      vanilla := Pending;
      anime := Pending;
    }

    /** `getRecommendation()` over the stored results. */
    function GetRecommendation(): (r: Recommendation)
      reads this
      ensures r == AnimeJs <==> vanilla.Measured? && anime.Measured? &&
                                anime.loadTime - vanilla.loadTime < 200 && anime.bundleSize - vanilla.bundleSize < 100000
      ensures !vanilla.Measured? || !anime.Measured? ==> r == ManualReview
    {
      RecommendationFor(LoadDiff(vanilla, anime), SizeDiff(vanilla, anime))
    }

    /** `generateReport()`: a truthy `error` on either side stops it before
      any advice; otherwise it compares whatever the two results hold. */
    function GenerateReport(): (report: Report)
      reads this
      ensures TruthyError(vanilla) ==> report == TestFailed(vanilla.error)
      ensures !TruthyError(vanilla) && TruthyError(anime) ==> report == TestFailed(anime.error)
      ensures !TruthyError(vanilla) && !TruthyError(anime) ==>
                && report.Compared?
                && report.loadDiff == LoadDiff(vanilla, anime)
                && report.sizeDiff == SizeDiff(vanilla, anime)
                && report.advice == GenerateRecommendations(vanilla, anime, report.loadDiff, report.sizeDiff)
                && report.recommendation == GetRecommendation()
    {
      if TruthyError(vanilla) then
        TestFailed(vanilla.error)
      else if TruthyError(anime) then
        TestFailed(anime.error)
      else
        var loadDiff := LoadDiff(vanilla, anime);
        var sizeDiff := SizeDiff(vanilla, anime);
        Compared(loadDiff, sizeDiff, GenerateRecommendations(vanilla, anime, loadDiff, sizeDiff), GetRecommendation())
    }

    /** `runTests()`: the two `testLoadTime` answers are stored, vanilla first,
        and the report is generated from them. */
    method RunTests(vanillaResult: TestResult, animeResult: TestResult) returns (report: Report)
      modifies this
      ensures vanilla == vanillaResult && anime == animeResult
      ensures report == GenerateReport()
    {
      vanilla := vanillaResult;
      anime := animeResult;
      report := GenerateReport();
    }
  }

  /** A report over results that carry no numbers and no truthy error (an
      error with an empty message, or an entry never filled) prints no advice
      and asks for a manual review. */
  lemma NumberlessReportNeedsReview(m: PerformanceMonitor)
    requires !m.vanilla.Measured? && !TruthyError(m.vanilla) && !TruthyError(m.anime)
    ensures m.GenerateReport() == Compared(None, None, [], ManualReview)
  {
  }

  /** Either failure short-circuits the report, whatever the other side holds. */
  lemma FailureShortCircuits(m: PerformanceMonitor)
    requires TruthyError(m.vanilla) || TruthyError(m.anime)
    ensures m.GenerateReport().TestFailed?
    ensures m.GenerateReport().error != ""
  {
  }
}
