/**
 * The browser's calculators (frontend/src/utils/chemistryCalculations.js).
 * JavaScript division never raises: a zero divisor or a missing reference
 * gives Infinity or NaN, which these functions return as None.
 */
module ChemistryCalculations {
  import opened Base
  import opened Numbers
  import opened Config
  import CalculationEngine

  /** Practice 4 (Volhard back-titration): 50 mL of 0.10 M AgNO3, 0.08 M KSCN, 35.45 g/mol of chloride. */
  const SilverNitrateVolume: real := 50.0
  const SilverNitrateMolarity: real := 0.10
  const ThiocyanateMolarity: real := 0.08
  const ChlorideMolarMass: real := 35.45

  /**
   * The base volume: the per-sample entry when a non-empty sample id is
   * given, the table exists and the entry is truthy; a missing or zero entry
   * falls back to expectedVolume.
   */
  function JsBaseVolume(t: TitrationConfig, sampleId: Option<string>): real
  {
    if PyTruthyString(sampleId) && t.volumesBySample.Some? then
      var entry := if sampleId.value in t.volumesBySample.value then Some(t.volumesBySample.value[sampleId.value]) else None;
      JsOr(entry, t.expectedVolume)
    else t.expectedVolume
  }

  /** The switch on the proportionality rule; a missing reference or a zero divisor gives no finite number. */
  function JsScale(prop: string, base: real, ref: Option<real>, measured: real): Option<real>
  {
    if prop == "direct" then
      if ref.None? || ref.value == 0.0 then None
      else Some(base * (measured / ref.value))
    else if prop == "inverse" then
      if ref.None? || measured == 0.0 then None
      else Some(base * (ref.value / measured))
    else Some(base)
  }

  /** calculateExpectedVolume; None when the result is not a finite number. */
  function CalculateExpectedVolume(t: TitrationConfig, measured: real, sampleId: Option<string>): Option<real>
  {
    JsScale(t.proportionality, JsBaseVolume(t, sampleId), t.referenceValue, measured)
  }

  /** calculatePractice4: milligrams of chloride per millilitre of sample. */
  function CalculatePractice4(vKscn: real, vSample: real): Option<real>
  {
    if vSample == 0.0 then None
    else Some((SilverNitrateVolume * SilverNitrateMolarity - vKscn * ThiocyanateMolarity) * ChlorideMolarMass / vSample)
  }

  /** calculatePractice5: hardness in ppm of CaCO3. */
  function CalculatePractice5(vEdta: real, vSample: real): Option<real>
  {
    if vSample == 0.0 then None
    else Some((vEdta * CalculationEngine.EdtaMolarity * CalculationEngine.CaCO3MolarMass * 1000.0) / vSample)
  }

  /** calculatePercentError */
  function CalculatePercentError(student: real, correct: real): real
  {
    if correct == 0.0 then 0.0 else Abs(student - correct) / correct * 100.0
  }

  /** The back-titration result falls as more thiocyanate is used, and is zero at 62.5 mL. */
  lemma Practice4Decreasing(v1: real, v2: real, vSample: real)
    requires vSample > 0.0 && v1 < v2
    ensures CalculatePractice4(v2, vSample).value < CalculatePractice4(v1, vSample).value
    ensures CalculatePractice4(62.5, vSample) == Some(0.0)
  {
    var a1 := (SilverNitrateVolume * SilverNitrateMolarity - v1 * ThiocyanateMolarity) * ChlorideMolarMass;
    var a2 := (SilverNitrateVolume * SilverNitrateMolarity - v2 * ThiocyanateMolarity) * ChlorideMolarMass;
    assert a2 < a1;
    assert a2 / vSample < a1 / vSample;
  }

  /** Hardness is linear in the EDTA volume and 0 for no EDTA. */
  lemma Practice5Linear(a: real, b: real, k: real, vSample: real)
    requires vSample != 0.0
    ensures CalculatePractice5(a + b, vSample).value
         == CalculatePractice5(a, vSample).value + CalculatePractice5(b, vSample).value
    ensures CalculatePractice5(k * a, vSample).value == k * CalculatePractice5(a, vSample).value
    ensures CalculatePractice5(0.0, vSample) == Some(0.0)
  {
    var c := CalculationEngine.EdtaMolarity * CalculationEngine.CaCO3MolarMass * 1000.0;
    assert (a + b) * CalculationEngine.EdtaMolarity * CalculationEngine.CaCO3MolarMass * 1000.0 == (a + b) * c;
    assert a * CalculationEngine.EdtaMolarity * CalculationEngine.CaCO3MolarMass * 1000.0 == a * c;
    assert b * CalculationEngine.EdtaMolarity * CalculationEngine.CaCO3MolarMass * 1000.0 == b * c;
    assert (k * a) * CalculationEngine.EdtaMolarity * CalculationEngine.CaCO3MolarMass * 1000.0 == k * (a * c);
    assert (a + b) * c / vSample == a * c / vSample + b * c / vSample;
    assert k * (a * c) / vSample == k * (a * c / vSample);
  }

  /** Zero for an exact answer or a zero correct value; never negative for a positive correct value. */
  lemma PercentErrorFacts(student: real, correct: real)
    ensures CalculatePercentError(correct, correct) == 0.0
    ensures CalculatePercentError(student, 0.0) == 0.0
    ensures correct > 0.0 ==> CalculatePercentError(student, correct) >= 0.0
  {
    if correct > 0.0 {
      assert Abs(student - correct) / correct >= 0.0;
    }
  }

  // ---------------------------------------------------------------- browser vs server

  /** Browser and server compute the same hardness and the same percent error. */
  lemma Practice5MatchesServer(recorded: real, measured: real, student: real, correct: real)
    ensures CalculationEngine.CorrectResult(5, recorded, measured).Ok? <==> CalculatePractice5(recorded, measured).Some?
    ensures CalculationEngine.CorrectResult(5, recorded, measured).Ok? ==>
      CalculationEngine.CorrectResult(5, recorded, measured).value == CalculatePractice5(recorded, measured).value
    ensures CalculatePercentError(student, correct) == CalculationEngine.PercentError(student, correct)
  {
  }

  /**
   * Where the server computes an expected volume, the browser computes the
   * same one, unless the sample's table entry is 0: the browser then falls
   * back to expectedVolume.
   */
  lemma ExpectedVolumeMatchesServer(p: Practice, measured: real, sampleId: Option<string>)
    requires p.titration.Some?
    requires CalculationEngine.CalculateExpectedVolume(p, measured, sampleId).Ok?
    requires !(PyTruthyString(sampleId) && p.titration.value.volumesBySample.Some?
               && sampleId.value in p.titration.value.volumesBySample.value
               && p.titration.value.volumesBySample.value[sampleId.value] == 0.0)
    ensures CalculateExpectedVolume(p.titration.value, measured, sampleId)
         == Some(CalculationEngine.CalculateExpectedVolume(p, measured, sampleId).value)
  {
    var t := p.titration.value;
    var base := CalculationEngine.BaseVolume(t, sampleId).value;
    assert JsBaseVolume(t, sampleId) == base;
    ScaleMatchesServer(t.proportionality, base, t.referenceValue, measured);
  }

  /** Where the server's rule gives a value, the browser's rule gives the same value. */
  lemma ScaleMatchesServer(prop: string, base: real, ref: Option<real>, measured: real)
    requires CalculationEngine.Scale(prop, base, ref, measured).Ok?
    ensures JsScale(prop, base, ref, measured) == Some(CalculationEngine.Scale(prop, base, ref, measured).value)
  {
    CalculationEngine.RuleNamesDiffer();
  }

  /** A sample missing from the table: the server raises KeyError while the browser uses expectedVolume. */
  lemma MissingSampleDiffers(p: Practice, measured: real, sample: string)
    requires p.titration.Some? && p.titration.value.volumesBySample.Some?
    requires sample != "" && sample !in p.titration.value.volumesBySample.value
    ensures CalculationEngine.CalculateExpectedVolume(p, measured, Some(sample)) == Err(CalculationEngine.KeyError(sample))
    ensures JsBaseVolume(p.titration.value, Some(sample)) == p.titration.value.expectedVolume
  {
  }
}
