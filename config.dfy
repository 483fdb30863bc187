/**
 * The practice configuration records both halves of the application read
 * (one dictionary per practice on the server, the same object in the
 * browser). Optional keys are Option values; keys every practice defines
 * are plain fields.
 */
module Config {
  import opened Base
  import opened Breakpoints

  /** The titration section of a practice. */
  datatype TitrationConfig = TitrationConfig(
    expectedVolume: real,
    referenceValue: Option<real>,
    proportionality: string,
    volumesBySample: Option<map<string, real>>,
    maxBuretteVolume: Option<real>,
    dropVolume: Option<real>,
    streamVolume: Option<real>,
    endpointTolerance: Option<real>,
    colorTransitions: seq<Breakpoint>)

  /** The calculation section: the accepted percent error. */
  datatype CalculationConfig = CalculationConfig(tolerance: real)

  /** One scoring tier of a range criterion, tried in order. */
  datatype Tier = Tier(maxError: real, score: real, feedback: string)

  /** One evaluation criterion; ctype is "boolean", "range" or anything else. */
  datatype Criterion = Criterion(id: string, labelText: string, weight: real, ctype: string, scoring: seq<Tier>)

  datatype Evaluation = Evaluation(criteria: seq<Criterion>, maxScore: Option<real>, passingScore: Option<real>)

  datatype BufferThresholds = BufferThresholds(poor: real, excess: real)

  datatype IndicatorThresholds = IndicatorThresholds(faint: int, dark: int)

  datatype BufferConfig = BufferConfig(qualityThresholds: Option<BufferThresholds>, defaultVolume: Option<real>)

  datatype IndicatorConfig = IndicatorConfig(intensityThresholds: Option<IndicatorThresholds>)

  datatype AssemblyConfig = AssemblyConfig(buffer: Option<BufferConfig>, indicator: Option<IndicatorConfig>)

  /** measurement.range as [low, high], either end possibly missing. */
  datatype MeasurementConfig = MeasurementConfig(rangeLow: Option<real>, rangeHigh: Option<real>, unit: Option<string>)

  datatype Practice = Practice(
    id: int,
    name: string,
    titration: Option<TitrationConfig>,
    calculation: Option<CalculationConfig>,
    evaluation: Option<Evaluation>,
    assemblyConfig: Option<AssemblyConfig>,
    measurement: Option<MeasurementConfig>)

  /**
   * JavaScript's `x || d` on an optional number: missing and 0 are falsy.
   * The result is the value or the default, and never 0 when the default is not.
   */
  function JsOr(x: Option<real>, d: real): (r: real)
    ensures r == d || (x.Some? && r == x.value)
    ensures d != 0.0 ==> r != 0.0
  {
    if x.Some? && x.value != 0.0 then x.value else d
  }

  /** Python truthiness of an optional string: missing and "" are falsy. */
  predicate PyTruthyString(s: Option<string>)
  {
    s.Some? && s.value != ""
  }

  /** Python truthiness of an optional number: missing and 0 are falsy. */
  predicate PyTruthyNumber(x: Option<real>)
  {
    x.Some? && x.value != 0.0
  }
}
