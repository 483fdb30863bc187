/**
 * The server's report (backend/services/report_generator.py): one scored
 * entry per evaluation criterion of the practice, in configuration order,
 * a total, a pass flag and an overall feedback band. Boolean criteria score
 * their full weight or nothing from a session flag; range criteria take the
 * score of the first tier whose maxError admits the session's error. The
 * timestamp of the report is not modelled.
 */
module ReportGenerator {
  import opened Base
  import opened Numbers
  import opened Config

  /** The session columns the report reads; nullable columns are Option values. */
  datatype Session = Session(
    id: string,
    practiceId: int,
    materialsCorrect: Option<bool>,
    measuredValue: Option<real>,
    assemblyCorrect: Option<bool>,
    studentCalculation: Option<real>,
    expectedVolume: Option<real>,
    recordedVolume: Option<real>,
    percentError: Option<real>)

  datatype CriterionScore = CriterionScore(criterionId: string, criterionLabel: string, score: real, maxScore: real, feedback: string)

  datatype Report = Report(
    sessionId: string,
    practiceId: int,
    criteria: seq<CriterionScore>,
    totalScore: real,
    maxScore: real,
    passed: bool,
    overallFeedback: string)

  const Excellent: string := "Excelente desempeño en la práctica."
  const Good: string := "Buen desempeño. Revisa los puntos de mejora."
  const Insufficient: string := "Desempeño insuficiente. Se recomienda repetir la práctica."
  const NoReading: string := "No se registró lectura de titulación."
  const NoCalculation: string := "No se realizó el cálculo."

  // ---------------------------------------------------------------- tiers

  /**
   * The first tier at index i or later whose maxError admits err: every
   * earlier tier from i rejects it, and None means every tier from i does.
   */
  function FirstTier(tiers: seq<Tier>, err: real, i: nat): (k: Option<nat>)
    requires i <= |tiers|
    ensures k.Some? ==> i <= k.value < |tiers| && err <= tiers[k.value].maxError
    ensures k.Some? ==> forall j :: i <= j < k.value ==> err > tiers[j].maxError
    ensures k.None? ==> forall j :: i <= j < |tiers| ==> err > tiers[j].maxError
    decreases |tiers| - i
  {
    if i == |tiers| then None
    else if err <= tiers[i].maxError then Some(i)
    else FirstTier(tiers, err, i + 1)
  }

  /** The score and feedback of the first admitting tier; (0, "") when none admits the error. */
  function TierOutcome(tiers: seq<Tier>, err: real): (real, string)
  {
    match FirstTier(tiers, err, 0)
    case Some(k) => (tiers[k].score, tiers[k].feedback)
    case None => (0.0, "")
  }

  /** The inner loop: walk the tiers and stop at the first one whose maxError admits err. */
  method SelectTier(tiers: seq<Tier>, err: real) returns (score: real, feedback: string)
    ensures (score, feedback) == TierOutcome(tiers, err)
  {
    score, feedback := 0.0, "";
    var i := 0;
    while i < |tiers|
      invariant 0 <= i <= |tiers|
      invariant FirstTier(tiers, err, 0) == FirstTier(tiers, err, i)
      invariant score == 0.0 && feedback == ""
    {
      if err <= tiers[i].maxError {
        score, feedback := tiers[i].score, tiers[i].feedback;
        break;
      }
      i := i + 1;
    }
  }

  /** A smaller error is admitted no later in the list than a larger one. */
  lemma {:induction false} FirstTierMonotone(tiers: seq<Tier>, e1: real, e2: real, i: nat)
    requires i <= |tiers| && e1 <= e2
    requires FirstTier(tiers, e2, i).Some?
    ensures FirstTier(tiers, e1, i).Some?
    ensures FirstTier(tiers, e1, i).value <= FirstTier(tiers, e2, i).value
    decreases |tiers| - i
  {
    if e2 <= tiers[i].maxError {
    } else {
      if e1 > tiers[i].maxError {
        FirstTierMonotone(tiers, e1, e2, i + 1);
      }
    }
  }

  /** With scores that fall along the list, a smaller error never scores less. */
  lemma SmallerErrorScoresNoLess(tiers: seq<Tier>, e1: real, e2: real)
    requires e1 <= e2
    requires forall i, j :: 0 <= i < j < |tiers| ==> tiers[j].score <= tiers[i].score
    requires forall i :: 0 <= i < |tiers| ==> 0.0 <= tiers[i].score
    ensures TierOutcome(tiers, e2).0 <= TierOutcome(tiers, e1).0
  {
    if FirstTier(tiers, e2, 0).Some? {
      FirstTierMonotone(tiers, e1, e2, 0);
    } else if FirstTier(tiers, e1, 0).Some? {
      assert 0.0 <= tiers[FirstTier(tiers, e1, 0).value].score;
    }
  }

  // ---------------------------------------------------------------- criteria

  /** The outcome of one criterion for the session, in the order the service tests type and id. */
  function ScoreCriterion(c: Criterion, s: Session): (real, string)
  {
    if c.ctype == "boolean" then
      if c.id == "materials" then
        if s.materialsCorrect == Some(true) then (c.weight, "Selección correcta de materiales.")
        else (0.0, "Materiales seleccionados incorrectamente.")
      else if c.id == "measurement" then
        if s.measuredValue.Some? then (c.weight, "Medición registrada correctamente.")
        else (0.0, "No se registró la medición.")
      else if c.id == "assembly" then
        if s.assemblyCorrect == Some(true) then (c.weight, "Montaje completado correctamente.")
        else (0.0, "Montaje incompleto o incorrecto.")
      else if c.id == "interpretation" then
        if s.studentCalculation.Some? then (c.weight, "Interpretación realizada.")
        else (0.0, "No se realizó interpretación.")
      else (0.0, "")
    else if c.ctype == "range" then
      if c.id == "endpoint" then
        if PyTruthyNumber(s.expectedVolume) && PyTruthyNumber(s.recordedVolume) then
          TierOutcome(c.scoring, Abs(s.recordedVolume.value - s.expectedVolume.value))
        else (0.0, NoReading)
      else if c.id == "calculation" then
        if s.percentError.Some? then TierOutcome(c.scoring, s.percentError.value)
        else (0.0, NoCalculation)
      else (0.0, "")
    else (0.0, "")
  }

  function Entry(c: Criterion, s: Session): CriterionScore
  {
    var (score, feedback) := ScoreCriterion(c, s);
    CriterionScore(c.id, c.labelText, score, c.weight, feedback)
  }

  /** The entries of the criteria, in order. */
  function Entries(cs: seq<Criterion>, s: Session): seq<CriterionScore>
    decreases |cs|
  {
    if cs == [] then [] else Entries(cs[..|cs| - 1], s) + [Entry(cs[|cs| - 1], s)]
  }

  /** The running total: the scores added in list order. */
  function SumScores(es: seq<CriterionScore>): real
    decreases |es|
  {
    if es == [] then 0.0 else SumScores(es[..|es| - 1]) + es[|es| - 1].score
  }

  /** The overall feedback bands: fixed at 80 and 60 whatever the passing score. */
  function OverallFeedback(total: real): string
  {
    if total >= 80.0 then Excellent
    else if total >= 60.0 then Good
    else Insufficient
  }

  /** practice_config.get("evaluation", {}): a missing section has no criteria and the default scores. */
  function EvaluationOf(p: Practice): Evaluation
  {
    if p.evaluation.Some? then p.evaluation.value else Evaluation([], None, None)
  }

  function MaxScoreOf(ev: Evaluation): real
  {
    if ev.maxScore.Some? then ev.maxScore.value else 100.0
  }

  function PassingScoreOf(ev: Evaluation): real
  {
    if ev.passingScore.Some? then ev.passingScore.value else 60.0
  }

  /** generate_report as a value. */
  function ReportOf(s: Session, p: Practice): Report
  {
    var ev := EvaluationOf(p);
    var entries := Entries(ev.criteria, s);
    var total := SumScores(entries);
    Report(s.id, s.practiceId, entries, PyRound2(total), MaxScoreOf(ev), total >= PassingScoreOf(ev), OverallFeedback(total))
  }

  /** The body of the criterion loop: the if-chain on type and id, the tier loop for range criteria. */
  method ScoreOne(c: Criterion, s: Session) returns (score: real, feedback: string)
    ensures (score, feedback) == ScoreCriterion(c, s)
  {
    score, feedback := 0.0, "";
    if c.ctype == "boolean" {
      if c.id == "materials" {
        if s.materialsCorrect == Some(true) {
          score, feedback := c.weight, "Selección correcta de materiales.";
        } else {
          score, feedback := 0.0, "Materiales seleccionados incorrectamente.";
        }
      } else if c.id == "measurement" {
        if s.measuredValue.Some? {
          score, feedback := c.weight, "Medición registrada correctamente.";
        } else {
          score, feedback := 0.0, "No se registró la medición.";
        }
      } else if c.id == "assembly" {
        if s.assemblyCorrect == Some(true) {
          score, feedback := c.weight, "Montaje completado correctamente.";
        } else {
          score, feedback := 0.0, "Montaje incompleto o incorrecto.";
        }
      } else if c.id == "interpretation" {
        if s.studentCalculation.Some? {
          score, feedback := c.weight, "Interpretación realizada.";
        } else {
          score, feedback := 0.0, "No se realizó interpretación.";
        }
      }
    } else if c.ctype == "range" {
      if c.id == "endpoint" {
        if PyTruthyNumber(s.expectedVolume) && PyTruthyNumber(s.recordedVolume) {
          var err := Abs(s.recordedVolume.value - s.expectedVolume.value);
          score, feedback := SelectTier(c.scoring, err);
        } else {
          score, feedback := 0.0, NoReading;
        }
      } else if c.id == "calculation" {
        if s.percentError.Some? {
          score, feedback := SelectTier(c.scoring, s.percentError.value);
        } else {
          score, feedback := 0.0, NoCalculation;
        }
      }
    }
  }

  /** generate_report: the criterion loop appends one entry per criterion and accumulates the total. */
  method GenerateReport(s: Session, p: Practice) returns (report: Report)
    ensures report == ReportOf(s, p)
  {
    var ev := EvaluationOf(p);
    var criteria := ev.criteria;
    var scores: seq<CriterionScore> := [];
    var total := 0.0;
    var i := 0;
    while i < |criteria|
      invariant 0 <= i <= |criteria|
      invariant scores == Entries(criteria[..i], s)
      invariant total == SumScores(scores)
    {
      var c := criteria[i];
      var score, feedback := ScoreOne(c, s);
      assert criteria[..i + 1][..i] == criteria[..i];
      scores := scores + [CriterionScore(c.id, c.labelText, score, c.weight, feedback)];
      total := total + score;
      i := i + 1;
    }
    assert criteria[..i] == criteria;
    report := Report(s.id, s.practiceId, scores, PyRound2(total), MaxScoreOf(ev), total >= PassingScoreOf(ev), OverallFeedback(total));
  }

  // ---------------------------------------------------------------- properties

  /** One entry per criterion, in configuration order, carrying its id, label, weight and outcome. */
  lemma {:induction false} EntriesMatchCriteria(cs: seq<Criterion>, s: Session)
    ensures |Entries(cs, s)| == |cs|
    ensures forall i :: 0 <= i < |cs| ==>
      Entries(cs, s)[i].criterionId == cs[i].id && Entries(cs, s)[i].criterionLabel == cs[i].labelText
      && Entries(cs, s)[i].maxScore == cs[i].weight
      && (Entries(cs, s)[i].score, Entries(cs, s)[i].feedback) == ScoreCriterion(cs[i], s)
    decreases |cs|
  {
    if cs != [] {
      var init := cs[..|cs| - 1];
      EntriesMatchCriteria(init, s);
      forall i | 0 <= i < |cs| - 1 ensures cs[i] == init[i] {}
    }
  }

  /** The report's entries are those of the practice's criteria, one each, in order. */
  lemma ReportHasOneEntryPerCriterion(s: Session, p: Practice)
    ensures var cs := EvaluationOf(p).criteria; var r := ReportOf(s, p);
      |r.criteria| == |cs|
      && forall i :: 0 <= i < |cs| ==>
        r.criteria[i].criterionId == cs[i].id && r.criteria[i].maxScore == cs[i].weight
        && (r.criteria[i].score, r.criteria[i].feedback) == ScoreCriterion(cs[i], s)
  {
    EntriesMatchCriteria(EvaluationOf(p).criteria, s);
  }

  /** The session flag a boolean criterion reads, for the four ids the service knows. */
  predicate FlagSet(id: string, s: Session)
  {
    (id == "materials" && s.materialsCorrect == Some(true))
    || (id == "measurement" && s.measuredValue.Some?)
    || (id == "assembly" && s.assemblyCorrect == Some(true))
    || (id == "interpretation" && s.studentCalculation.Some?)
  }

  predicate KnownBooleanId(id: string)
  {
    id == "materials" || id == "measurement" || id == "assembly" || id == "interpretation"
  }

  /**
   * A boolean criterion scores its full weight when its session flag is set
   * and 0 otherwise; an id the service does not know scores 0 with empty
   * feedback.
   */
  lemma BooleanCriterionScore(c: Criterion, s: Session)
    requires c.ctype == "boolean"
    ensures FlagSet(c.id, s) ==> ScoreCriterion(c, s).0 == c.weight
    ensures !FlagSet(c.id, s) ==> ScoreCriterion(c, s).0 == 0.0
    ensures !KnownBooleanId(c.id) ==> ScoreCriterion(c, s) == (0.0, "")
    ensures KnownBooleanId(c.id) ==> ScoreCriterion(c, s).1 != ""
  {
    BooleanIdsDiffer();
    if c.id == "materials" {
      assert !FlagSet(c.id, s) <==> s.materialsCorrect != Some(true);
    } else if c.id == "measurement" {
      assert !FlagSet(c.id, s) <==> s.measuredValue.None?;
    } else if c.id == "assembly" {
      assert !FlagSet(c.id, s) <==> s.assemblyCorrect != Some(true);
    } else if c.id == "interpretation" {
      assert !FlagSet(c.id, s) <==> s.studentCalculation.None?;
    } else {
      assert !FlagSet(c.id, s);
    }
  }

  lemma BooleanIdsDiffer()
    ensures "materials" != "measurement" && "materials" != "assembly" && "materials" != "interpretation"
    ensures "measurement" != "assembly" && "measurement" != "interpretation" && "assembly" != "interpretation"
    ensures "boolean" != "range" && "endpoint" != "calculation"
  {
    assert "materials"[1] != "measurement"[1];
    assert "materials"[0] != "assembly"[0] && "materials"[0] != "interpretation"[0];
    assert "measurement"[0] != "assembly"[0] && "measurement"[0] != "interpretation"[0];
    assert "assembly"[0] != "interpretation"[0];
    assert "boolean"[0] != "range"[0] && "endpoint"[0] != "calculation"[0];
  }

  /**
   * The endpoint criterion: with a truthy expected and recorded volume it
   * scores the first tier admitting their distance, or 0 when none does; a
   * missing or zero volume on either side scores 0.
   */
  lemma EndpointScore(c: Criterion, s: Session)
    requires c.ctype == "range" && c.id == "endpoint"
    ensures PyTruthyNumber(s.expectedVolume) && PyTruthyNumber(s.recordedVolume) ==>
      var k := FirstTier(c.scoring, Abs(s.recordedVolume.value - s.expectedVolume.value), 0);
      ScoreCriterion(c, s).0 == (if k.Some? then c.scoring[k.value].score else 0.0)
    ensures !(PyTruthyNumber(s.expectedVolume) && PyTruthyNumber(s.recordedVolume)) ==> ScoreCriterion(c, s) == (0.0, NoReading)
  {
    BooleanIdsDiffer();
  }

  /** A titration read at exactly 0.0 mL counts as no reading at all. */
  lemma ZeroReadingScoresNothing(c: Criterion, s: Session)
    requires c.ctype == "range" && c.id == "endpoint" && s.recordedVolume == Some(0.0)
    ensures ScoreCriterion(c, s) == (0.0, NoReading)
  {
    BooleanIdsDiffer();
  }

  /** The calculation criterion: the first tier admitting the percent error, or 0 without one. */
  lemma CalculationScore(c: Criterion, s: Session)
    requires c.ctype == "range" && c.id == "calculation"
    ensures s.percentError.Some? ==>
      var k := FirstTier(c.scoring, s.percentError.value, 0);
      ScoreCriterion(c, s).0 == (if k.Some? then c.scoring[k.value].score else 0.0)
    ensures s.percentError.None? ==> ScoreCriterion(c, s) == (0.0, NoCalculation)
  {
    BooleanIdsDiffer();
  }

  /** A criterion of another type, or a range criterion with another id, scores 0 with empty feedback. */
  lemma OtherCriteriaScoreNothing(c: Criterion, s: Session)
    requires c.ctype != "boolean"
    requires c.ctype == "range" ==> c.id != "endpoint" && c.id != "calculation"
    ensures ScoreCriterion(c, s) == (0.0, "")
  {
  }

  /**
   * The total is the sum of the entries' scores rounded to hundredths; the
   * pass flag compares the UNROUNDED sum with passingScore (60 by default);
   * the overall band reads the unrounded sum too; maxScore defaults to 100.
   */
  lemma ReportTotals(s: Session, p: Practice)
    ensures var r := ReportOf(s, p); var sum := SumScores(r.criteria);
      r.totalScore == PyRound2(sum)
      && (r.passed <==> sum >= PassingScoreOf(EvaluationOf(p)))
      && (EvaluationOf(p).passingScore.None? ==> (r.passed <==> sum >= 60.0))
      && (EvaluationOf(p).maxScore.None? ==> r.maxScore == 100.0)
      && r.overallFeedback == OverallFeedback(sum)
  {
  }

  /** The sum over the report entries is the sum of the criteria's outcomes. */
  lemma {:induction false} SumOfEntries(cs: seq<Criterion>, s: Session)
    ensures SumScores(Entries(cs, s)) == SumOutcomes(cs, s)
    decreases |cs|
  {
    if cs != [] {
      var init := cs[..|cs| - 1];
      SumOfEntries(init, s);
      assert Entries(cs, s)[..|cs| - 1] == Entries(init, s) by { EntriesMatchCriteria(init, s); }
    }
  }

  /** The outcomes' scores summed directly over the criteria. */
  function SumOutcomes(cs: seq<Criterion>, s: Session): real
    decreases |cs|
  {
    if cs == [] then 0.0 else SumOutcomes(cs[..|cs| - 1], s) + ScoreCriterion(cs[|cs| - 1], s).0
  }

  /**
   * A session meeting every boolean criterion of an all-boolean evaluation
   * scores the sum of the weights.
   */
  lemma {:induction false} AllFlagsScoreFullWeight(cs: seq<Criterion>, s: Session)
    requires forall i :: 0 <= i < |cs| ==> cs[i].ctype == "boolean" && FlagSet(cs[i].id, s)
    ensures SumOutcomes(cs, s) == SumWeights(cs)
    decreases |cs|
  {
    if cs != [] {
      AllFlagsScoreFullWeight(cs[..|cs| - 1], s);
      BooleanCriterionScore(cs[|cs| - 1], s);
    }
  }

  function SumWeights(cs: seq<Criterion>): real
    decreases |cs|
  {
    if cs == [] then 0.0 else SumWeights(cs[..|cs| - 1]) + cs[|cs| - 1].weight
  }

  /** The band does not follow passingScore: with passingScore 50 a total of 55 passes yet reads as insufficient. */
  lemma BandIgnoresPassingScore(s: Session, p: Practice)
    requires EvaluationOf(p).passingScore == Some(50.0)
    requires SumScores(ReportOf(s, p).criteria) == 55.0
    ensures ReportOf(s, p).passed && ReportOf(s, p).overallFeedback == Insufficient
  {
  }

  /** A sum of 59.996 is reported as 60.0 yet does not pass the default threshold of 60. */
  lemma RoundedTotalCanLookPassing()
    ensures PyRound2(59.996) == 60.0 && !(59.996 >= 60.0)
  {
    assert 59.996 * 100.0 == 5999.6;
    assert (5999.6 + 0.5).Floor == 6000;
  }
}
