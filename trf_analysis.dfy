/** The checks and summaries of `src/utils/trfParser.js` that work on the
    parsed points: validation, the statistics summary, the rule-based
    quality scorer, the 22 kHz cutoff filter and the sample-rate choice. */
module TrfAnalysis {
  import opened Common
  import opened Text
  import TrfParser

  // ---------------------------------------------------------------------
  // validateTRFData

  /** The frequency bound of this parser: the 22 kHz cutoff. */
  predicate FrequencyInCutoff(p: Point)
  {
    FrequencyWithin(p, 22000.0)
  }

  /** `validateTRFData`: frequencies must lie within [0, 22000]. */
  function ValidateTRFData(ps: seq<Point>): (r: Result<bool, ValidationError>)
    ensures r == Err(NoValidPoints) <==> ps == []
    ensures r == Err(FrequencyOutOfRange) <==>
      ps != [] && exists i :: 0 <= i < |ps| && !(0.0 <= ps[i].frequency <= 22000.0)
    ensures r.Ok? <==>
      ps != [] && forall i :: 0 <= i < |ps| ==>
        0.0 <= ps[i].frequency <= 22000.0 && -200.0 <= ps[i].magnitude <= 200.0
  {
    ValidatePoints(ps, 22000.0)
  }

  /** A non-empty set of points read from a binary file always validates. */
  lemma BinaryPointsValidate(buf: seq<byte>, readF32: seq<byte> -> Option<real>, start: nat)
    requires TrfParser.Records(buf, readF32, start) != []
    ensures ValidateTRFData(TrfParser.Records(buf, readF32, start)) == Ok(true)
  {
    TrfParser.RecordsInRange(buf, readF32, start);
  }

  /** Points of the text format never fail the frequency check: only an
      empty list or an extreme magnitude is rejected. */
  lemma TextPointsPassFrequencyCheck(lines: seq<string>, js: JsNumbers)
    ensures ValidateTRFData(TrfParser.TextPoints(lines, js)) != Err(FrequencyOutOfRange)
  {
    TrfParser.TextPointsInRange(lines, js);
  }

  // ---------------------------------------------------------------------
  // analyzeTRFData

  datatype FrequencyRange = FrequencyRange(min: real, max: real, span: real)

  datatype ValueRange = ValueRange(min: real, max: real, average: real)

  datatype CoherenceStats = CoherenceStats(count: nat, average: real, min: real, max: real)

  datatype Analysis = Analysis(
    pointCount: nat,
    frequencyRange: FrequencyRange,
    magnitudeRange: ValueRange,
    phaseRange: ValueRange,
    hasCoherence: bool,
    coherenceStats: Option<CoherenceStats>)

  predicate HasCoherence(p: Point)
  {
    p.coherence.Some?
  }

  /** `points.filter(p => p.coherence !== undefined).map(p => p.coherence)`. */
  function CoherenceValues(ps: seq<Point>): (cs: seq<real>)
    ensures |cs| == |Filter(ps, HasCoherence)|
  {
    var withCoherence := Filter(ps, HasCoherence);
    FilterAccepts(ps, HasCoherence);
    seq(|withCoherence|, i requires 0 <= i < |withCoherence| => withCoherence[i].coherence.value)
  }

  function Summary(xs: seq<real>): (r: ValueRange)
    requires |xs| > 0
  {
    ValueRange(Min(xs), Max(xs), Average(xs))
  }

  /** `analyzeTRFData`: `null` for no points, else the summary. */
  function AnalyzeTRFData(ps: seq<Point>): (r: Option<Analysis>)
    ensures r.None? <==> ps == []
  {
    if ps == [] then None
    else
      var fs := Frequencies(ps);
      var cs := CoherenceValues(ps);
      Some(Analysis(
        |ps|,
        FrequencyRange(Min(fs), Max(fs), Max(fs) - Min(fs)),
        Summary(Magnitudes(ps)),
        Summary(Phases(ps)),
        |cs| > 0,
        if |cs| > 0 then Some(CoherenceStats(|cs|, Average(cs), Min(cs), Max(cs))) else None))
  }

  /** A summary's minimum and maximum bound every value and are attained,
      and its average lies between them. */
  predicate Summarises(r: ValueRange, xs: seq<real>)
  {
    && (forall i :: 0 <= i < |xs| ==> r.min <= xs[i] <= r.max)
    && r.min in xs && r.max in xs
    && r.min <= r.average <= r.max
  }

  lemma SummaryOf(xs: seq<real>)
    requires |xs| > 0
    ensures Summarises(Summary(xs), xs)
  {
    AverageWithinRange(xs);
  }

  /** What the analysis says about the points: their number, the extreme
      frequencies and the span between them, magnitude and phase summaries,
      and coherence statistics exactly when some point has a coherence,
      counting those points. */
  lemma AnalysisSummarises(ps: seq<Point>)
    requires ps != []
    ensures var a := AnalyzeTRFData(ps).value;
      && a.pointCount == |ps|
      && (forall i :: 0 <= i < |ps| ==> a.frequencyRange.min <= ps[i].frequency <= a.frequencyRange.max)
      && a.frequencyRange.min in Frequencies(ps) && a.frequencyRange.max in Frequencies(ps)
      && a.frequencyRange.span == a.frequencyRange.max - a.frequencyRange.min >= 0.0
      && Summarises(a.magnitudeRange, Magnitudes(ps))
      && Summarises(a.phaseRange, Phases(ps))
      && (a.hasCoherence <==> exists i :: 0 <= i < |ps| && ps[i].coherence.Some?)
      && (a.coherenceStats.Some? <==> a.hasCoherence)
      && (a.coherenceStats.Some? ==>
            a.coherenceStats.value.count == |Filter(ps, HasCoherence)|
            && a.coherenceStats.value.min <= a.coherenceStats.value.average <= a.coherenceStats.value.max)
  {
    var fs := Frequencies(ps);
    SummaryOf(Magnitudes(ps));
    SummaryOf(Phases(ps));
    var cs := CoherenceValues(ps);
    if |cs| > 0 {
      AverageWithinRange(cs);
      var p := Filter(ps, HasCoherence)[0];
      FilterAccepts(ps, HasCoherence);
      FilterMembers(ps, HasCoherence, p);
    } else {
      forall i | 0 <= i < |ps|
        ensures ps[i].coherence.None?
      {
        FilterMembers(ps, HasCoherence, ps[i]);
      }
    }
  }

  /** When every coherence lies in [0, 1], as the parsers guarantee, so do
      the coherence statistics. */
  lemma CoherenceStatsInUnitRange(ps: seq<Point>)
    requires forall i :: 0 <= i < |ps| ==> ps[i].coherence.Some? ==> 0.0 <= ps[i].coherence.value <= 1.0
    requires ps != [] && AnalyzeTRFData(ps).value.coherenceStats.Some?
    ensures var c := AnalyzeTRFData(ps).value.coherenceStats.value;
      0.0 <= c.min <= c.average <= c.max <= 1.0
  {
    var withCoherence := Filter(ps, HasCoherence);
    var cs := CoherenceValues(ps);
    FilterAccepts(ps, HasCoherence);
    forall i | 0 <= i < |cs|
      ensures 0.0 <= cs[i] <= 1.0
    {
      FilterMembers(ps, HasCoherence, withCoherence[i]);
    }
    AverageWithinRange(cs);
  }

  // ---------------------------------------------------------------------
  // assessDataQuality

  datatype Warning =
    | LowMagnitude(count: nat)
    | HighMagnitude(count: nat)
    | LowCoherence
    | ModerateCoherence
    | LimitedLowFrequency
    | LimitedHighFrequency
    | CutAtHearingLimit

  datatype Recommendation = AverageMeasurements | MayExtendBeyondCutoff | MoreFrequencyPoints | WiderSpan

  datatype Rating = Good | Fair | Poor

  datatype Assessment = Assessment(
    overall: Rating,
    issues: seq<string>,
    warnings: seq<Warning>,
    recommendations: seq<Recommendation>)

  const LowMagnitudeText := " points with very low magnitude (< -100 dB)"
  const HighMagnitudeText := " points with very high magnitude (> 20 dB)"

  /** The message each warning is pushed as; the two counted ones start
      with the count. */
  function WarningMessage(w: Warning): string
  {
    match w
    case LowMagnitude(n) => NatToString(n) + LowMagnitudeText
    case HighMagnitude(n) => NatToString(n) + HighMagnitudeText
    case LowCoherence => "Low average coherence (< 0.1) - measurement may be noisy"
    case ModerateCoherence => "Moderate coherence - some measurement noise detected"
    case LimitedLowFrequency => "Limited low frequency data (< 200 Hz)"
    case LimitedHighFrequency => "Limited high frequency data (2k-20k Hz)"
    case CutAtHearingLimit => "Data automatically cut at 22kHz" + " (human hearing limit)"
  }

  /** The message each recommendation is pushed as. */
  function RecommendationMessage(r: Recommendation): string
  {
    match r
    case AverageMeasurements => "Consider averaging multiple measurements"
    case MayExtendBeyondCutoff => "Original data may have extended beyond 22kHz"
    case MoreFrequencyPoints => "Consider using more frequency points for better resolution"
    case WiderSpan => "Limited frequency span - consider wider measurement range"
  }

  /** The `warnings` array of the assessment object: one message per
      warning, in order. */
  function WarningTexts(ws: seq<Warning>): (ts: seq<string>)
    ensures |ts| == |ws|
    ensures forall i :: 0 <= i < |ws| ==> ts[i] == WarningMessage(ws[i])
  {
    seq(|ws|, i requires 0 <= i < |ws| => WarningMessage(ws[i]))
  }

  /** The `recommendations` array of the assessment object. */
  function RecommendationTexts(rs: seq<Recommendation>): (ts: seq<string>)
    ensures |ts| == |rs|
    ensures forall i :: 0 <= i < |rs| ==> ts[i] == RecommendationMessage(rs[i])
  {
    seq(|rs|, i requires 0 <= i < |rs| => RecommendationMessage(rs[i]))
  }

  /** Only the hearing-limit warning is pushed with the hearing-limit
      message: every other message starts with a digit or another letter. */
  lemma CutMessageIsUnique(w: Warning)
    ensures WarningMessage(w) == WarningMessage(CutAtHearingLimit) <==> w == CutAtHearingLimit
  {
    match w
    case LowMagnitude(n) => CountLedIsNotCut(n, LowMagnitudeText);
    case HighMagnitude(n) => CountLedIsNotCut(n, HighMagnitudeText);
    case LowCoherence =>
    case ModerateCoherence =>
    case LimitedLowFrequency =>
    case LimitedHighFrequency =>
    case CutAtHearingLimit =>
  }

  lemma CountLedIsNotCut(n: nat, suffix: string)
    ensures NatToString(n) + suffix != WarningMessage(CutAtHearingLimit)
  {
    var t := NatToString(n) + suffix;
    assert t[0] == NatToString(n)[0];
    assert WarningMessage(CutAtHearingLimit)[0] == 'D';
  }

  /** Only the extend-beyond-cutoff recommendation is pushed with its
      message. */
  lemma ExtendMessageIsUnique(r: Recommendation)
    ensures RecommendationMessage(r) == RecommendationMessage(MayExtendBeyondCutoff) <==> r == MayExtendBeyondCutoff
  {
  }

  /** The message arrays name the hearing-limit cut exactly when the
      warnings and recommendations do. */
  lemma CutTextsFollowCut(ws: seq<Warning>, rs: seq<Recommendation>)
    ensures WarningMessage(CutAtHearingLimit) in WarningTexts(ws) <==> CutAtHearingLimit in ws
    ensures RecommendationMessage(MayExtendBeyondCutoff) in RecommendationTexts(rs) <==> MayExtendBeyondCutoff in rs
  {
    var ts, us := WarningTexts(ws), RecommendationTexts(rs);
    if WarningMessage(CutAtHearingLimit) in ts {
      var i :| 0 <= i < |ts| && ts[i] == WarningMessage(CutAtHearingLimit);
      CutMessageIsUnique(ws[i]);
    }
    if CutAtHearingLimit in ws {
      var i :| 0 <= i < |ws| && ws[i] == CutAtHearingLimit;
      assert ts[i] == WarningMessage(CutAtHearingLimit);
    }
    if RecommendationMessage(MayExtendBeyondCutoff) in us {
      var i :| 0 <= i < |us| && us[i] == RecommendationMessage(MayExtendBeyondCutoff);
      ExtendMessageIsUnique(rs[i]);
    }
    if MayExtendBeyondCutoff in rs {
      var i :| 0 <= i < |rs| && rs[i] == MayExtendBeyondCutoff;
      assert us[i] == RecommendationMessage(MayExtendBeyondCutoff);
    }
  }

  predicate VeryLowMagnitude(p: Point) { p.magnitude < -100.0 }

  predicate VeryHighMagnitude(p: Point) { p.magnitude > 20.0 }

  predicate InLowBand(p: Point) { 20.0 <= p.frequency < 200.0 }

  predicate InHighBand(p: Point) { 2000.0 <= p.frequency < 20000.0 }

  function Count(ps: seq<Point>, keep: Point -> bool): nat
  {
    |Filter(ps, keep)|
  }

  /** `ratio < 0.1` for `count / total`; with no points the ratio is NaN and
      the comparison is false. */
  predicate BelowTenth(count: nat, total: nat)
  {
    total > 0 && count as real / total as real < 0.1
  }

  /** The average coherence the scorer looks at, when the analysis has one. */
  function AverageCoherence(a: Analysis): Option<real>
  {
    if a.hasCoherence && a.coherenceStats.Some? then Some(a.coherenceStats.value.average) else None
  }

  /** `Math.max(...frequencies) === 22000`; for no points the maximum is
      -Infinity. */
  predicate CutAt22k(ps: seq<Point>)
  {
    ps != [] && Max(Frequencies(ps)) == 22000.0
  }

  /** The facts about the points and their analysis that the scorer's rules
      look at. */
  datatype Signals = Signals(
    lowMagnitudes: nat,
    highMagnitudes: nat,
    coherence: Option<real>,
    fewLow: bool,
    fewHigh: bool,
    cut: bool,
    pointCount: nat,
    span: real)

  function SignalsOf(ps: seq<Point>, a: Analysis): Signals
  {
    Signals(
      Count(ps, VeryLowMagnitude), Count(ps, VeryHighMagnitude), AverageCoherence(a),
      BelowTenth(Count(ps, InLowBand), |ps|), BelowTenth(Count(ps, InHighBand), |ps|),
      CutAt22k(ps), |ps|, a.frequencyRange.span)
  }

  function When<T>(c: bool, x: T): seq<T>
  {
    if c then [x] else []
  }

  predicate LowAverage(coherence: Option<real>) { coherence.Some? && coherence.value < 0.1 }

  predicate ModerateAverage(coherence: Option<real>) { coherence.Some? && 0.1 <= coherence.value < 0.5 }

  /** The warnings, in the order the scorer pushes them. */
  function WarningsFor(s: Signals): seq<Warning>
  {
    When(s.lowMagnitudes > 0, LowMagnitude(s.lowMagnitudes))
    + When(s.highMagnitudes > 0, HighMagnitude(s.highMagnitudes))
    + When(LowAverage(s.coherence), LowCoherence)
    + When(ModerateAverage(s.coherence), ModerateCoherence)
    + When(s.fewLow, LimitedLowFrequency)
    + When(s.fewHigh, LimitedHighFrequency)
    + When(s.cut, CutAtHearingLimit)
  }

  /** The recommendations, in the order the scorer pushes them. */
  function RecommendationsFor(s: Signals): seq<Recommendation>
  {
    When(LowAverage(s.coherence), AverageMeasurements)
    + When(s.cut, MayExtendBeyondCutoff)
    + When(s.pointCount < 100, MoreFrequencyPoints)
    + When(s.span < 1000.0, WiderSpan)
  }

  function Warnings(ps: seq<Point>, a: Analysis): seq<Warning>
  {
    WarningsFor(SignalsOf(ps, a))
  }

  function Recommendations(ps: seq<Point>, a: Analysis): seq<Recommendation>
  {
    RecommendationsFor(SignalsOf(ps, a))
  }

  /** `poor` above three warnings, `fair` above one, `good` otherwise. */
  function RatingFor(warningCount: nat): Rating
  {
    if warningCount > 3 then Poor else if warningCount > 1 then Fair else Good
  }

  /** The TypeError the source throws when it reads `analysis.hasCoherence`
      on the `null` that `analyzeTRFData` gives for no points. */
  const NullAnalysis := "Cannot read properties of null (reading 'hasCoherence')"

  /** `assessDataQuality`: the checks run in the order of the source, each
      pushing onto the warnings and recommendations collected so far. A
      missing analysis stops it at the coherence check with an error. */
  method AssessDataQuality(ps: seq<Point>, analysis: Option<Analysis>) returns (r: Result<Assessment, string>)
    ensures analysis.None? <==> r.Err?
    ensures r.Err? ==> r.error == NullAnalysis
    ensures r.Ok? ==>
      && r.value.issues == []
      && r.value.warnings == Warnings(ps, analysis.value)
      && r.value.recommendations == Recommendations(ps, analysis.value)
      && r.value.overall == RatingFor(|r.value.warnings|)
  {
    var warnings := CheckMagnitudes(ps);
    if analysis.None? {
      return Err(NullAnalysis);
    }
    var recommendations;
    warnings, recommendations := CheckCoherence(analysis.value, warnings);
    warnings := CheckFrequencyBands(ps, warnings);
    warnings, recommendations := CheckCutoff(ps, warnings, recommendations);
    var overall := OverallRating(warnings);
    recommendations := AddGeneralRecommendations(ps, analysis.value, recommendations);
    r := Ok(Assessment(overall, [], warnings, recommendations));
  }

  /** Extreme magnitudes: the counts below -100 dB and above 20 dB. */
  method CheckMagnitudes(ps: seq<Point>) returns (result: seq<Warning>)
    ensures result ==
      When(Count(ps, VeryLowMagnitude) > 0, LowMagnitude(Count(ps, VeryLowMagnitude)))
      + When(Count(ps, VeryHighMagnitude) > 0, HighMagnitude(Count(ps, VeryHighMagnitude)))
  {
    result := [];
    var extremeLowMag := Count(ps, VeryLowMagnitude);
    var extremeHighMag := Count(ps, VeryHighMagnitude);
    if extremeLowMag > 0 {
      result := result + [LowMagnitude(extremeLowMag)];
    }
    if extremeHighMag > 0 {
      result := result + [HighMagnitude(extremeHighMag)];
    }
  }

  /** Coherence quality: a low average asks for averaging, a moderate one
      is only a warning. */
  method CheckCoherence(analysis: Analysis, warnings: seq<Warning>)
    returns (newWarnings: seq<Warning>, recommendations: seq<Recommendation>)
    ensures newWarnings == warnings
      + When(LowAverage(AverageCoherence(analysis)), LowCoherence)
      + When(ModerateAverage(AverageCoherence(analysis)), ModerateCoherence)
    ensures recommendations == When(LowAverage(AverageCoherence(analysis)), AverageMeasurements)
  {
    newWarnings, recommendations := warnings, [];
    if analysis.hasCoherence && analysis.coherenceStats.Some? {
      var avgCoherence := analysis.coherenceStats.value.average;
      if avgCoherence < 0.1 {
        newWarnings := newWarnings + [LowCoherence];
        recommendations := recommendations + [AverageMeasurements];
      } else if avgCoherence < 0.5 {
        newWarnings := newWarnings + [ModerateCoherence];
      }
    }
  }

  /** Frequency distribution: fewer than a tenth of the points in the low
      band [20, 200) or in the high band [2000, 20000). */
  method CheckFrequencyBands(ps: seq<Point>, warnings: seq<Warning>) returns (result: seq<Warning>)
    ensures result == warnings
      + When(BelowTenth(Count(ps, InLowBand), |ps|), LimitedLowFrequency)
      + When(BelowTenth(Count(ps, InHighBand), |ps|), LimitedHighFrequency)
  {
    result := warnings;
    var lowBand := Count(ps, InLowBand);
    var highBand := Count(ps, InHighBand);
    var totalPoints := |ps|;
    if BelowTenth(lowBand, totalPoints) {
      result := result + [LimitedLowFrequency];
    }
    if BelowTenth(highBand, totalPoints) {
      result := result + [LimitedHighFrequency];
    }
  }

  /** Data that tops out at exactly 22000 Hz was probably cut there. */
  method CheckCutoff(ps: seq<Point>, warnings: seq<Warning>, recommendations: seq<Recommendation>)
    returns (newWarnings: seq<Warning>, newRecommendations: seq<Recommendation>)
    ensures newWarnings == warnings + When(CutAt22k(ps), CutAtHearingLimit)
    ensures newRecommendations == recommendations + When(CutAt22k(ps), MayExtendBeyondCutoff)
  {
    newWarnings, newRecommendations := warnings, recommendations;
    if ps != [] && Max(Frequencies(ps)) == 22000.0 {
      newWarnings := newWarnings + [CutAtHearingLimit];
      newRecommendations := newRecommendations + [MayExtendBeyondCutoff];
    }
  }

  method OverallRating(warnings: seq<Warning>) returns (overall: Rating)
    ensures overall == RatingFor(|warnings|)
  {
    if |warnings| > 3 {
      overall := Poor;
    } else if |warnings| > 1 {
      overall := Fair;
    } else {
      overall := Good;
    }
  }

  /** The recommendations that do not depend on any warning. */
  method AddGeneralRecommendations(ps: seq<Point>, analysis: Analysis, recommendations: seq<Recommendation>)
    returns (result: seq<Recommendation>)
    ensures result == recommendations + When(|ps| < 100, MoreFrequencyPoints)
      + When(analysis.frequencyRange.span < 1000.0, WiderSpan)
  {
    result := recommendations;
    if |ps| < 100 {
      result := result + [MoreFrequencyPoints];
    }
    if analysis.frequencyRange.span < 1000.0 {
      result := result + [WiderSpan];
    }
  }

  /** The magnitude warnings are raised exactly when some point is very low
      or very high, and always carry the full count. */
  lemma MagnitudeWarningRules(ps: seq<Point>, a: Analysis)
    ensures var w := Warnings(ps, a);
      && (LowMagnitude(Count(ps, VeryLowMagnitude)) in w <==> Count(ps, VeryLowMagnitude) > 0)
      && (HighMagnitude(Count(ps, VeryHighMagnitude)) in w <==> Count(ps, VeryHighMagnitude) > 0)
      && (forall n :: LowMagnitude(n) in w ==> n == Count(ps, VeryLowMagnitude))
      && (forall n :: HighMagnitude(n) in w ==> n == Count(ps, VeryHighMagnitude))
  {
    var s := SignalsOf(ps, a);
    WarningMembership(s, LowMagnitude(s.lowMagnitudes));
    WarningMembership(s, HighMagnitude(s.highMagnitudes));
    forall n | LowMagnitude(n) in WarningsFor(s)
      ensures n == s.lowMagnitudes
    {
      WarningMembership(s, LowMagnitude(n));
    }
    forall n | HighMagnitude(n) in WarningsFor(s)
      ensures n == s.highMagnitudes
    {
      WarningMembership(s, HighMagnitude(n));
    }
  }

  /** The other warnings are raised exactly under their rules: a low or
      else a moderate average coherence, fewer than one point in ten in the
      low or the high band, and a maximum frequency of exactly 22000. */
  lemma WarningRules(ps: seq<Point>, a: Analysis)
    ensures var w := Warnings(ps, a);
      && (LowCoherence in w <==> AverageCoherence(a).Some? && AverageCoherence(a).value < 0.1)
      && (ModerateCoherence in w <==> AverageCoherence(a).Some? && 0.1 <= AverageCoherence(a).value < 0.5)
      && (LimitedLowFrequency in w <==> |ps| > 0 && 10 * Count(ps, InLowBand) < |ps|)
      && (LimitedHighFrequency in w <==> |ps| > 0 && 10 * Count(ps, InHighBand) < |ps|)
      && (CutAtHearingLimit in w <==> CutAt22k(ps))
  {
    var s := SignalsOf(ps, a);
    WarningMembership(s, LowCoherence);
    WarningMembership(s, ModerateCoherence);
    WarningMembership(s, LimitedLowFrequency);
    WarningMembership(s, LimitedHighFrequency);
    WarningMembership(s, CutAtHearingLimit);
    BelowTenthCompare(Count(ps, InLowBand), |ps|);
    BelowTenthCompare(Count(ps, InHighBand), |ps|);
  }

  /** A ratio below a tenth is a count less than a tenth of the total. */
  lemma BelowTenthCompare(count: nat, total: nat)
    ensures BelowTenth(count, total) <==> total > 0 && 10 * count < total
  {
    if total > 0 {
      QuotientCompare(count as real, total as real, 0.1);
      assert (10 * count) as real == 10.0 * (count as real);
    }
  }

  lemma WhenHas<T>(c: bool, x: T, y: T)
    ensures y in When(c, x) <==> c && y == x
  {
  }

  /** A warning is raised exactly when its rule holds. */
  lemma WarningMembership(s: Signals, y: Warning)
    ensures y in WarningsFor(s) <==>
      || (s.lowMagnitudes > 0 && y == LowMagnitude(s.lowMagnitudes))
      || (s.highMagnitudes > 0 && y == HighMagnitude(s.highMagnitudes))
      || (LowAverage(s.coherence) && y == LowCoherence)
      || (ModerateAverage(s.coherence) && y == ModerateCoherence)
      || (s.fewLow && y == LimitedLowFrequency)
      || (s.fewHigh && y == LimitedHighFrequency)
      || (s.cut && y == CutAtHearingLimit)
  {
    WhenHas(s.lowMagnitudes > 0, LowMagnitude(s.lowMagnitudes), y);
    WhenHas(s.highMagnitudes > 0, HighMagnitude(s.highMagnitudes), y);
    WhenHas(LowAverage(s.coherence), LowCoherence, y);
    WhenHas(ModerateAverage(s.coherence), ModerateCoherence, y);
    WhenHas(s.fewLow, LimitedLowFrequency, y);
    WhenHas(s.fewHigh, LimitedHighFrequency, y);
    WhenHas(s.cut, CutAtHearingLimit, y);
  }

  /** A recommendation is made exactly when its rule holds. */
  lemma RecommendationMembership(s: Signals, y: Recommendation)
    ensures y in RecommendationsFor(s) <==>
      || (LowAverage(s.coherence) && y == AverageMeasurements)
      || (s.cut && y == MayExtendBeyondCutoff)
      || (s.pointCount < 100 && y == MoreFrequencyPoints)
      || (s.span < 1000.0 && y == WiderSpan)
  {
    WhenHas(LowAverage(s.coherence), AverageMeasurements, y);
    WhenHas(s.cut, MayExtendBeyondCutoff, y);
    WhenHas(s.pointCount < 100, MoreFrequencyPoints, y);
    WhenHas(s.span < 1000.0, WiderSpan, y);
  }

  /** The two coherence rules exclude each other, so at most six of the
      seven warnings can be raised together. */
  lemma WarningCount(s: Signals)
    ensures |WarningsFor(s)| <= 6
  {
    assert !(LowAverage(s.coherence) && ModerateAverage(s.coherence));
  }

  /** The recommendations follow their rules; the ones for few points and
      a narrow span come after the rating and so never affect it. */
  lemma RecommendationRules(ps: seq<Point>, a: Analysis)
    ensures var r := Recommendations(ps, a);
      && (AverageMeasurements in r <==> LowCoherence in Warnings(ps, a))
      && (MayExtendBeyondCutoff in r <==> CutAtHearingLimit in Warnings(ps, a))
      && (MoreFrequencyPoints in r <==> |ps| < 100)
      && (WiderSpan in r <==> a.frequencyRange.span < 1000.0)
  {
    var s := SignalsOf(ps, a);
    RecommendationMembership(s, AverageMeasurements);
    RecommendationMembership(s, MayExtendBeyondCutoff);
    RecommendationMembership(s, MoreFrequencyPoints);
    RecommendationMembership(s, WiderSpan);
    WarningMembership(s, LowCoherence);
    WarningMembership(s, CutAtHearingLimit);
  }

  /** The assessment object pushes the hearing-limit warning and the
      extend-beyond-cutoff recommendation together, or neither. */
  lemma CutMessagesPaired(ps: seq<Point>, a: Analysis)
    ensures WarningMessage(CutAtHearingLimit) in WarningTexts(Warnings(ps, a))
      <==> RecommendationMessage(MayExtendBeyondCutoff) in RecommendationTexts(Recommendations(ps, a))
  {
    RecommendationRules(ps, a);
    CutTextsFollowCut(Warnings(ps, a), Recommendations(ps, a));
  }

  /** At most six warnings can be raised: the two coherence warnings
      exclude each other. */
  lemma AtMostSixWarnings(ps: seq<Point>, a: Analysis)
    ensures |Warnings(ps, a)| <= 6
    ensures !(LowCoherence in Warnings(ps, a) && ModerateCoherence in Warnings(ps, a))
  {
    var s := SignalsOf(ps, a);
    WarningCount(s);
    WarningMembership(s, LowCoherence);
    WarningMembership(s, ModerateCoherence);
  }

  /** The rating grows with the number of warnings. */
  lemma RatingMonotone(m: nat, n: nat)
    requires m <= n
    ensures RatingFor(m) == Poor ==> RatingFor(n) == Poor
    ensures RatingFor(n) == Good ==> RatingFor(m) == Good
  {
  }

  /** Data that passed the cutoff and has a point at exactly 22000 is
      reported as cut. */
  lemma CutReportedAtLimit(ps: seq<Point>, a: Analysis, i: nat)
    requires forall j :: 0 <= j < |ps| ==> FrequencyInCutoff(ps[j])
    requires i < |ps| && ps[i].frequency == 22000.0
    ensures CutAtHearingLimit in Warnings(ps, a)
  {
    var fs := Frequencies(ps);
    assert fs[i] == 22000.0;
    WarningMembership(SignalsOf(ps, a), CutAtHearingLimit);
  }

  // ---------------------------------------------------------------------
  // apply22kHzCutoff and detectOptimalSampleRate

  /** `apply22kHzCutoff`: the points with a frequency in [0, 22000]. */
  function Apply22kHzCutoff(ps: seq<Point>): seq<Point>
  {
    Filter(ps, FrequencyInCutoff)
  }

  /** The cutoff keeps exactly the points within [0, 22000], each as often
      as it occurs, in their order. */
  lemma CutoffKeepsInRangePoints(ps: seq<Point>)
    ensures forall i :: 0 <= i < |Apply22kHzCutoff(ps)| ==> FrequencyInCutoff(Apply22kHzCutoff(ps)[i])
    ensures forall p :: p in Apply22kHzCutoff(ps) <==> p in ps && FrequencyInCutoff(p)
    ensures forall p :: FrequencyInCutoff(p) ==> multiset(Apply22kHzCutoff(ps))[p] == multiset(ps)[p]
  {
    FilterAccepts(ps, FrequencyInCutoff);
    forall p ensures p in Apply22kHzCutoff(ps) <==> p in ps && FrequencyInCutoff(p) {
      FilterMembers(ps, FrequencyInCutoff, p);
    }
    forall p | FrequencyInCutoff(p) ensures multiset(Apply22kHzCutoff(ps))[p] == multiset(ps)[p] {
      FilterMultiset(ps, FrequencyInCutoff, p);
    }
  }

  /** Applying the cutoff twice is applying it once. */
  lemma CutoffIdempotent(ps: seq<Point>)
    ensures Apply22kHzCutoff(Apply22kHzCutoff(ps)) == Apply22kHzCutoff(ps)
  {
    FilterIdempotent(ps, FrequencyInCutoff);
  }

  /** The parsers already cut at 22 kHz, so the cutoff leaves their output
      unchanged. */
  lemma CutoffKeepsParsedPoints(buf: seq<byte>, readF32: seq<byte> -> Option<real>, start: nat,
                                lines: seq<string>, js: JsNumbers)
    ensures Apply22kHzCutoff(TrfParser.Records(buf, readF32, start)) == TrfParser.Records(buf, readF32, start)
    ensures Apply22kHzCutoff(TrfParser.TextPoints(lines, js)) == TrfParser.TextPoints(lines, js)
  {
    TrfParser.RecordsInRange(buf, readF32, start);
    FilterAccepted(TrfParser.Records(buf, readF32, start), FrequencyInCutoff);
    TrfParser.TextPointsInRange(lines, js);
    FilterAccepted(TrfParser.TextPoints(lines, js), FrequencyInCutoff);
  }

  /** `detectOptimalSampleRate`: 48000 for no points or a maximum frequency
      up to 22000, else `ceil(maxFreq * 2 * 1.1)`. */
  function DetectOptimalSampleRate(ps: seq<Point>): int
  {
    if ps == [] then 48000
    else
      var maxFreq := Max(Frequencies(ps));
      if maxFreq <= 22000.0 then 48000 else Ceil(maxFreq * 2.0 * 1.1)
  }

  /** The chosen rate is at least 48000 and at least twice every point's
      frequency, so no point lies above the Nyquist frequency; above the
      22 kHz limit it also keeps the 10% headroom. */
  lemma SampleRateCoversNyquist(ps: seq<Point>)
    ensures DetectOptimalSampleRate(ps) >= 48000
    ensures forall i :: 0 <= i < |ps| ==> 2.0 * ps[i].frequency <= DetectOptimalSampleRate(ps) as real
    ensures ps != [] && Max(Frequencies(ps)) > 22000.0 ==>
      forall i :: 0 <= i < |ps| ==> 2.2 * ps[i].frequency <= DetectOptimalSampleRate(ps) as real
  {
    if ps != [] {
      var fs := Frequencies(ps);
      var maxFreq := Max(fs);
      forall i | 0 <= i < |ps|
        ensures 2.0 * ps[i].frequency <= DetectOptimalSampleRate(ps) as real
        ensures maxFreq > 22000.0 ==> 2.2 * ps[i].frequency <= DetectOptimalSampleRate(ps) as real
      {
        assert ps[i].frequency == fs[i] <= maxFreq;
      }
    }
  }
}
