/**
 * The server's calculators (backend/services/calculation_engine.py): the
 * titrant volume a practice expects for a measured sample, and the check of
 * a student's result against the value computed from the student's own
 * recorded volume. The practice registry is passed in as its id -> config
 * map. Python exceptions are the Err values of PyError.
 */
module CalculationEngine {
  import opened Base
  import opened Numbers
  import opened Config

  /** The exceptions the services raise or let escape. */
  datatype PyError =
    | PracticeNotFound(id: int)          // ValueError: unknown practice
    | NoTitrationConfig(id: int)         // ValueError: practice without a titration section
    | KeyError(key: string)              // a missing dictionary key
    | ZeroDivisionError
    | HexValueError(text: string)        // int(text, 16) rejected the text

  /** Milligrams of CaCO3 per litre of sample for practice 5: 0.01 M EDTA, 100.09 g/mol, per 1000 mL. */
  const EdtaMolarity: real := 0.01
  const CaCO3MolarMass: real := 100.09

  /** The base volume: the per-sample table entry when a sample id is given and the table exists, else expectedVolume. */
  function BaseVolume(t: TitrationConfig, sampleId: Option<string>): Result<real, PyError>
  {
    if PyTruthyString(sampleId) && t.volumesBySample.Some? then
      if sampleId.value in t.volumesBySample.value then Ok(t.volumesBySample.value[sampleId.value])
      else Err(KeyError(sampleId.value))
    else Ok(t.expectedVolume)
  }

  /** The proportionality rule applied to the base volume; referenceValue is read only by "direct" and "inverse". */
  function Scale(prop: string, base: real, ref: Option<real>, measured: real): Result<real, PyError>
  {
    if prop == "fixed" then Ok(base)
    else if prop == "direct" then
      if ref.None? then Err(KeyError("referenceValue"))
      else if ref.value == 0.0 then Err(ZeroDivisionError)
      else Ok(base * (measured / ref.value))
    else if prop == "inverse" then
      if ref.None? then Err(KeyError("referenceValue"))
      else if measured == 0.0 then Err(ZeroDivisionError)
      else Ok(base * (ref.value / measured))
    else Ok(base)
  }

  /** The three rule names are distinct strings. */
  lemma RuleNamesDiffer()
    ensures "fixed" != "direct" && "fixed" != "inverse" && "direct" != "inverse"
  {
    assert "fixed"[0] != "direct"[0] && "fixed"[0] != "inverse"[0] && "direct"[0] != "inverse"[0];
  }

  /** calculate_expected_volume */
  function CalculateExpectedVolume(p: Practice, measured: real, sampleId: Option<string>): Result<real, PyError>
  {
    if p.titration.None? then Err(KeyError("titration"))
    else
      var t := p.titration.value;
      match BaseVolume(t, sampleId)
      case Err(e) => Err(e)
      case Ok(base) => Scale(t.proportionality, base, t.referenceValue, measured)
  }

  /** The sample table is consulted exactly when a non-empty sample id is given and the table exists; a missing entry raises. */
  lemma BaseVolumeChoice(t: TitrationConfig, sampleId: Option<string>)
    ensures BaseVolume(t, sampleId).Err? <==>
      PyTruthyString(sampleId) && t.volumesBySample.Some? && sampleId.value !in t.volumesBySample.value
    ensures !(PyTruthyString(sampleId) && t.volumesBySample.Some?) ==> BaseVolume(t, sampleId) == Ok(t.expectedVolume)
  {
  }

  /** The service fails exactly on a missing section, a missing sample entry, a missing reference or a zero divisor. */
  lemma ExpectedVolumeFailsExactly(p: Practice, measured: real, sampleId: Option<string>)
    ensures CalculateExpectedVolume(p, measured, sampleId).Err? <==>
      p.titration.None?
      || BaseVolume(p.titration.value, sampleId).Err?
      || ((p.titration.value.proportionality == "direct" || p.titration.value.proportionality == "inverse")
          && p.titration.value.referenceValue.None?)
      || (p.titration.value.proportionality == "direct" && p.titration.value.referenceValue == Some(0.0))
      || (p.titration.value.proportionality == "inverse" && p.titration.value.referenceValue.Some? && measured == 0.0)
  {
    RuleNamesDiffer();
  }

  /** Both proportional rules give the base volume back when the sample equals the reference. */
  lemma ScaleAtReference(prop: string, base: real, ref: real)
    requires ref != 0.0
    ensures Scale(prop, base, Some(ref), ref) == Ok(base)
  {
    RuleNamesDiffer();
    assert ref / ref == 1.0;
    assert base * (ref / ref) == base;
    if prop == "direct" || prop == "inverse" {
      var r := Scale(prop, base, Some(ref), ref);
      assert r.Ok? && r.value == base * (ref / ref);
    }
  }

  /** With positive base and reference, "direct" grows with the measured value and "inverse" shrinks with it. */
  lemma ScaleMonotone(base: real, ref: real, m1: real, m2: real)
    requires base > 0.0 && ref > 0.0 && 0.0 < m1 < m2
    ensures Scale("direct", base, Some(ref), m1).value < Scale("direct", base, Some(ref), m2).value
    ensures Scale("inverse", base, Some(ref), m2).value < Scale("inverse", base, Some(ref), m1).value
  {
    RuleNamesDiffer();
    assert m1 / ref < m2 / ref;
    assert ref / m2 < ref / m1 by {
      assert ref / m2 * m2 == ref;
      assert ref / m1 * m1 == ref;
      assert ref / m2 * m1 < ref / m2 * m2;
    }
  }

  /** The "direct" and "inverse" volumes for the same sample multiply to the base volume squared. */
  lemma DirectTimesInverse(base: real, ref: real, m: real)
    requires ref != 0.0 && m != 0.0
    ensures Scale("direct", base, Some(ref), m).value * Scale("inverse", base, Some(ref), m).value == base * base
  {
    RuleNamesDiffer();
    assert (m / ref) * (ref / m) == 1.0;
    assert (base * (m / ref)) * (base * (ref / m)) == base * base * ((m / ref) * (ref / m));
  }

  // ---------------------------------------------------------------- validation

  /** The fields of validate_student_calculation's answer; the feedback sentence is not modelled. */
  datatype Validation = Validation(
    correctResult: real,
    studentResult: real,
    percentError: real,
    isWithinTolerance: bool,
    tolerance: real)

  /** The correct result from the student's recorded volume: practice 5's hardness formula, 0 for every other practice. */
  function CorrectResult(practiceId: int, recorded: real, measured: real): Result<real, PyError>
  {
    if practiceId == 5 then
      if measured == 0.0 then Err(ZeroDivisionError)
      else Ok((recorded * EdtaMolarity * CaCO3MolarMass * 1000.0) / measured)
    else Ok(0.0)
  }

  /** The unrounded percent error; 0 when the correct value is 0. */
  function PercentError(student: real, correct: real): real
  {
    if correct == 0.0 then 0.0 else Abs(student - correct) / correct * 100.0
  }

  /** validate_student_calculation over the registry's map. */
  function ValidateStudentCalculation(practices: map<int, Practice>, practiceId: int, recorded: real,
                                      measured: real, student: real): Result<Validation, PyError>
  {
    if practiceId !in practices then Err(PracticeNotFound(practiceId))
    else
      var p := practices[practiceId];
      if p.calculation.None? then Err(KeyError("calculation"))
      else
        var tolerance := p.calculation.value.tolerance;
        match CorrectResult(practiceId, recorded, measured)
        case Err(e) => Err(e)
        case Ok(correct) =>
          var pe := PercentError(student, correct);
          Ok(Validation(PyRound2(correct), PyRound2(student), PyRound2(pe), pe <= tolerance, tolerance))
  }

  /**
   * Validation fails exactly for an unknown practice, a practice without a
   * calculation section, or practice 5 with a zero sample; otherwise the
   * verdict compares the UNROUNDED percent error with the tolerance.
   */
  lemma ValidationOutcome(practices: map<int, Practice>, pid: int, recorded: real, measured: real, student: real)
    ensures var r := ValidateStudentCalculation(practices, pid, recorded, measured, student);
      (r.Err? <==> pid !in practices || practices[pid].calculation.None? || (pid == 5 && measured == 0.0))
      && (r.Ok? ==> (r.value.tolerance == practices[pid].calculation.value.tolerance
                     && (r.value.isWithinTolerance <==>
                         PercentError(student, CorrectResult(pid, recorded, measured).value) <= r.value.tolerance)))
  {
  }

  /** An exact answer has no error, and a positive correct value never gives a negative one. */
  lemma PercentErrorFacts(student: real, correct: real)
    ensures PercentError(correct, correct) == 0.0
    ensures correct > 0.0 ==> PercentError(student, correct) >= 0.0
  {
    if correct > 0.0 {
      assert Abs(student - correct) / correct >= 0.0;
    }
  }

  /** Every practice other than 5 has correct value 0, so any answer is within a non-negative tolerance. */
  lemma OtherPracticesAlwaysWithin(practices: map<int, Practice>, pid: int, recorded: real, measured: real, student: real)
    requires pid != 5 && pid in practices && practices[pid].calculation.Some?
    requires practices[pid].calculation.value.tolerance >= 0.0
    ensures ValidateStudentCalculation(practices, pid, recorded, measured, student).Ok?
    ensures ValidateStudentCalculation(practices, pid, recorded, measured, student).value.isWithinTolerance
    ensures ValidateStudentCalculation(practices, pid, recorded, measured, student).value.correctResult == 0.0
  {
    assert RoundHalfEven(0.0) == 0;
  }

  /**
   * The reported percent error is rounded but the verdict is not: with
   * tolerance 5, an error of 5.004 is reported as 5.0 and still judged
   * outside the tolerance.
   */
  lemma RoundedErrorCanLookWithin()
    ensures PyRound2(5.004) == 5.0 && !(5.004 <= 5.0)
  {
    assert 5.004 * 100.0 == 500.4;
    assert (500.4).Floor == 500;
  }
}
