/**
 * The titration stage (frontend/src/components/stages/S5_Execution.jsx):
 * when the practice has a titration section, the stage scales the expected
 * volume to the measured sample, turns the assembly choices into modifiers
 * and starts the titration tracker; recording stores the burette reading
 * and moves on to stage 6.
 */
module ExecutionStage {
  import opened Base
  import opened Breakpoints
  import opened Config
  import opened TitrationStore
  import opened SimulatorStore
  import ChemistryCalculations
  import CalculationEngine

  /** `titration.referenceValue || 100`: never zero. */
  function ReferenceOrDefault(t: TitrationConfig): (r: real)
    ensures r != 0.0
    ensures t.referenceValue.Some? && t.referenceValue.value != 0.0 ==> r == t.referenceValue.value
    ensures t.referenceValue.None? || t.referenceValue.value == 0.0 ==> r == 100.0
  {
    JsOr(t.referenceValue, 100.0)
  }

  /** `measuredValue || refValue`: never zero either. */
  function MeasuredOrReference(t: TitrationConfig, measuredValue: Option<real>): (r: real)
    ensures r != 0.0
    ensures measuredValue.Some? && measuredValue.value != 0.0 ==> r == measuredValue.value
    ensures measuredValue.None? || measuredValue.value == 0.0 ==> r == ReferenceOrDefault(t)
  {
    JsOr(measuredValue, ReferenceOrDefault(t))
  }

  /**
   * The stage's expected volume: the configured volume scaled by
   * measured / reference for a direct rule, by reference / measured for an
   * inverse one, unscaled otherwise. Both divisors are non-zero by the
   * fallbacks above, so the value is always a finite number.
   */
  function StageExpectedVolume(t: TitrationConfig, measuredValue: Option<real>): real
  {
    var refValue := ReferenceOrDefault(t);
    var measured := MeasuredOrReference(t, measuredValue);
    if t.proportionality == "direct" then (t.expectedVolume / refValue) * measured
    else if t.proportionality == "inverse" then (t.expectedVolume * refValue) / measured
    else t.expectedVolume
  }

  /**
   * The modifiers the stage derives from the assembly: a buffer quality only
   * when the practice has buffer thresholds and a buffer volume was chosen,
   * the drop count whenever one was chosen, and never an indicator intensity.
   */
  function DeriveModifiers(ac: Option<AssemblyConfig>, bufferVolume: Option<real>, indicatorDrops: Option<int>): (m: Modifiers)
    ensures m.indicatorIntensity == None
    ensures m.indicatorDrops == indicatorDrops
    ensures m.bufferQuality.Some? <==> HasBufferThresholds(ac) && bufferVolume.Some?
    ensures m.bufferQuality.Some? ==>
      var th := ac.value.buffer.value.qualityThresholds.value;
      && (m.bufferQuality.value == "poor" <==> bufferVolume.value < th.poor)
      && (m.bufferQuality.value == "excess" <==> th.poor <= bufferVolume.value && bufferVolume.value > th.excess)
      && (m.bufferQuality.value == "good" <==> th.poor <= bufferVolume.value <= th.excess)
  {
    var quality :=
      if HasBufferThresholds(ac) && bufferVolume.Some? then
        var th := ac.value.buffer.value.qualityThresholds.value;
        if bufferVolume.value < th.poor then Some("poor")
        else if bufferVolume.value > th.excess then Some("excess")
        else Some("good")
      else None;
    Modifiers(quality, None, indicatorDrops)
  }

  /** `assemblyConfig?.buffer?.qualityThresholds` is present. */
  predicate HasBufferThresholds(ac: Option<AssemblyConfig>)
  {
    ac.Some? && ac.value.buffer.Some? && ac.value.buffer.value.qualityThresholds.Some?
  }

  /** With no usable measurement the stage keeps the configured volume, whatever the rule. */
  lemma NoMeasurementKeepsVolume(t: TitrationConfig, measuredValue: Option<real>)
    requires measuredValue.None? || measuredValue.value == 0.0
    ensures StageExpectedVolume(t, measuredValue) == t.expectedVolume
  {
    var refValue := ReferenceOrDefault(t);
    assert (t.expectedVolume / refValue) * refValue == t.expectedVolume;
    assert (t.expectedVolume * refValue) / refValue == t.expectedVolume;
  }

  /**
   * With a configured non-zero reference and a non-zero measurement the stage
   * computes the same volume as the calculator module without a sample id.
   */
  lemma StageMatchesCalculator(t: TitrationConfig, m: real)
    requires t.referenceValue.Some? && t.referenceValue.value != 0.0 && m != 0.0
    ensures ChemistryCalculations.CalculateExpectedVolume(t, m, None).Some?
    ensures ChemistryCalculations.CalculateExpectedVolume(t, m, None).value == StageExpectedVolume(t, Some(m))
  {
    var b, rv := t.expectedVolume, t.referenceValue.value;
    assert ChemistryCalculations.JsBaseVolume(t, None) == b;
    var stage := StageExpectedVolume(t, Some(m));
    CalculationEngine.RuleNamesDiffer();
    if t.proportionality == "direct" {
      assert stage == (b / rv) * m;
      ProductOfQuotient(b, m, rv);
    } else if t.proportionality == "inverse" {
      assert stage == (b * rv) / m;
      ProductOfQuotient(b, rv, m);
    }
  }

  lemma ProductOfQuotient(b: real, x: real, y: real)
    requires y != 0.0
    ensures (b / y) * x == b * (x / y) && (b * x) / y == b * (x / y)
  {
  }

  /**
   * Without a configured reference the calculator has no finite result for a
   * direct rule, while the stage scales against 100.
   */
  lemma MissingReferenceDefaultsToHundred(t: TitrationConfig, m: real)
    requires t.referenceValue.None? && t.proportionality == "direct" && m != 0.0
    ensures ChemistryCalculations.CalculateExpectedVolume(t, m, None).None?
    ensures StageExpectedVolume(t, Some(m)) == t.expectedVolume * m / 100.0
  {
  }

  /**
   * For positive volumes and samples, a larger sample raises the expected
   * volume under a direct rule and lowers it under an inverse one.
   */
  lemma StageVolumeMonotone(t: TitrationConfig, m1: real, m2: real)
    requires t.expectedVolume > 0.0 && 0.0 < m1 < m2
    requires t.referenceValue.None? || t.referenceValue.value > 0.0
    ensures t.proportionality == "direct" ==> StageExpectedVolume(t, Some(m1)) < StageExpectedVolume(t, Some(m2))
    ensures t.proportionality == "inverse" ==> StageExpectedVolume(t, Some(m2)) < StageExpectedVolume(t, Some(m1))
  {
    assert MeasuredOrReference(t, Some(m1)) == m1 && MeasuredOrReference(t, Some(m2)) == m2;
    assert ReferenceOrDefault(t) > 0.0;
    if t.proportionality == "direct" {
      ScaledIncreasing(t.expectedVolume / ReferenceOrDefault(t), m1, m2);
    } else if t.proportionality == "inverse" {
      QuotientDecreasing(t.expectedVolume * ReferenceOrDefault(t), m1, m2);
    }
  }

  lemma ScaledIncreasing(c: real, m1: real, m2: real)
    requires c > 0.0 && m1 < m2
    ensures c * m1 < c * m2
  {
  }

  lemma QuotientDecreasing(k: real, m1: real, m2: real)
    requires k > 0.0 && 0.0 < m1 < m2
    ensures k / m2 < k / m1
  {
    var q1, q2 := k / m1, k / m2;
    assert q1 * m1 == k && q2 * m2 == k;
    if q2 >= q1 {
      assert q2 * m2 >= q1 * m2;
    }
  }

  /**
   * The stage's modifiers never lighten or darken the colour list: whatever
   * the assembly, the titration starts with the configured colours.
   */
  lemma StageModifiersKeepColours(ts: seq<Breakpoint>, ac: Option<AssemblyConfig>, bufferVolume: Option<real>, indicatorDrops: Option<int>)
    ensures var r := EffectiveTransitions(ts, DeriveModifiers(ac, bufferVolume, indicatorDrops));
      |r| == |ts| && forall i :: 0 <= i < |ts| ==> r[i].color == ts[i].color
  {
  }

  /** A buffer below the poor threshold is the only case where the stage changes the list's progress points. */
  lemma OnlyPoorBufferMovesBreakpoints(ts: seq<Breakpoint>, ac: Option<AssemblyConfig>, bufferVolume: Option<real>, indicatorDrops: Option<int>)
    requires !HasBufferThresholds(ac) || bufferVolume.None? || bufferVolume.value >= ac.value.buffer.value.qualityThresholds.value.poor
    ensures EffectiveTransitions(ts, DeriveModifiers(ac, bufferVolume, indicatorDrops)) == ts
  {
  }

  /**
   * The stage's effect: start the titration when the practice has a
   * titration section, otherwise leave the tracker alone.
   */
  method StartTitration(store: Store, tracker: TitrationTracker)
    modifies tracker
    ensures store.practiceConfig.None? || store.practiceConfig.value.titration.None? ==> unchanged(tracker)
    ensures store.practiceConfig.Some? && store.practiceConfig.value.titration.Some? ==>
      var t := store.practiceConfig.value.titration.value;
      var ev := StageExpectedVolume(t, store.measuredValue);
      && tracker.Valid()
      && tracker.volumeAdded == 0.0
      && tracker.expectedVolume == (if ev != 0.0 then ev else t.expectedVolume)
      && tracker.colorTransitions == EffectiveTransitions(t.colorTransitions,
           DeriveModifiers(store.practiceConfig.value.assemblyConfig, store.bufferVolume, store.indicatorDrops))
  {
    if store.practiceConfig.Some? && store.practiceConfig.value.titration.Some? {
      var t := store.practiceConfig.value.titration.value;
      var mods := DeriveModifiers(store.practiceConfig.value.assemblyConfig, store.bufferVolume, store.indicatorDrops);
      tracker.InitTitration(t, Some(StageExpectedVolume(t, store.measuredValue)), mods);
    }
  }

  /** handleConfirmRecord: the burette reading becomes the recorded volume and the stage moves to 6. */
  method ConfirmRecord(store: Store, tracker: TitrationTracker)
    requires store != tracker as object
    modifies store`recordedVolume, store`currentStage
    ensures store.recordedVolume == Some(tracker.volumeAdded)
    ensures store.currentStage == 6
  {
    store.SetRecordedVolume(Some(tracker.volumeAdded));
    store.SetCurrentStage(6);
  }
}
