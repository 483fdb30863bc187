/**
 * The assembly stage (frontend/src/components/stages/S4_Assembly.jsx): the
 * effect that records finished sub-steps in the session store, the finish
 * handler that copies the assembly into the store, the warnings shown in the
 * summary and the instruction index.
 */
module AssemblyStage {
  import opened Base
  import opened Config
  import opened SimulatorStore
  import Assembly
  import ExecutionStage

  const MeasureStep: string := "medir_muestra"
  const TransferStep: string := "transferir_erlenmeyer"
  const BufferStep: string := "agregar_tampon"
  const IndicatorStep: string := "agregar_indicador"

  /** The four summary warnings; Message gives the text the stage shows. */
  datatype Warning = PoorBuffer | ExcessBuffer | FaintIndicator | DarkIndicator

  function Message(w: Warning): string
  {
    match w
    case PoorBuffer => "Poco tampón puede afectar la detección del punto final"
    case ExcessBuffer => "Exceso de tampón podría interferir con el indicador"
    case FaintIndicator => "Pocas gotas de indicador — el color será tenue y difícil de observar"
    case DarkIndicator => "Muchas gotas de indicador — el color será oscuro y difícil de leer"
  }

  lemma StepIdsDiffer()
    ensures MeasureStep != TransferStep && MeasureStep != BufferStep && TransferStep != BufferStep
    ensures IndicatorStep != MeasureStep && IndicatorStep != TransferStep && IndicatorStep != BufferStep
  {
    assert MeasureStep[0] != TransferStep[0] && MeasureStep[0] != BufferStep[0] && TransferStep[0] != BufferStep[0];
    assert IndicatorStep[0] != MeasureStep[0] && IndicatorStep[0] != TransferStep[0] && IndicatorStep[8] != BufferStep[8];
  }

  // ---------------------------------------------------------------- step tracking

  /** The effect's three checks, each against the list as it was when the effect ran. */
  function TrackSteps(completed: seq<string>, subStep: int): seq<string>
  {
    completed
    + (if subStep > 1 && MeasureStep !in completed then [MeasureStep] else [])
    + (if subStep > 2 && TransferStep !in completed then [TransferStep] else [])
    + (if subStep > 3 && BufferStep !in completed then [BufferStep] else [])
  }

  /**
   * After the effect a step id is recorded exactly when it was already, or
   * the sub-step has passed it; the earlier list is kept as a prefix.
   */
  lemma TrackStepsRecords(completed: seq<string>, subStep: int)
    ensures completed <= TrackSteps(completed, subStep)
    ensures MeasureStep in TrackSteps(completed, subStep) <==> MeasureStep in completed || subStep > 1
    ensures TransferStep in TrackSteps(completed, subStep) <==> TransferStep in completed || subStep > 2
    ensures BufferStep in TrackSteps(completed, subStep) <==> BufferStep in completed || subStep > 3
    ensures forall x :: x in TrackSteps(completed, subStep) ==> x in completed || x == MeasureStep || x == TransferStep || x == BufferStep
  {
    StepIdsDiffer();
  }

  /** The effect never records an id twice: an id it adds was absent and is added once. */
  lemma TrackStepsAtMostOnce(completed: seq<string>, subStep: int, id: string)
    ensures id in completed ==> multiset(TrackSteps(completed, subStep))[id] == multiset(completed)[id]
    ensures id !in completed ==> multiset(TrackSteps(completed, subStep))[id] <= 1
  {
    StepIdsDiffer();
  }

  /** Running the effect again at the same sub-step changes nothing. */
  lemma TrackStepsIdempotent(completed: seq<string>, subStep: int)
    ensures TrackSteps(TrackSteps(completed, subStep), subStep) == TrackSteps(completed, subStep)
  {
    TrackStepsRecords(completed, subStep);
  }

  /** The tracking effect against the store. */
  method TrackCompletedSteps(store: Store, subStep: int)
    modifies store`completedSteps
    ensures store.completedSteps == TrackSteps(old(store.completedSteps), subStep)
  {
    var snapshot := store.completedSteps;
    if subStep > 1 && MeasureStep !in snapshot {
      store.CompleteStep(MeasureStep);
    }
    if subStep > 2 && TransferStep !in snapshot {
      store.CompleteStep(TransferStep);
    }
    if subStep > 3 && BufferStep !in snapshot {
      store.CompleteStep(BufferStep);
    }
  }

  // ---------------------------------------------------------------- finish

  /** The stage's own state: whether the summary is on screen. */
  class AssemblyStageView {
    var showSummary: bool

    constructor ()
      ensures !showSummary
    {
      showSummary := false;
    }

    /**
     * handleFinish: record the indicator step unless present, ask the hook to
     * finish, show the summary and copy the buffer amount and drop count
     * into the store. The store is told the assembly is correct whether or
     * not the hook accepted the finish.
     */
    method HandleFinish(store: Store, hook: Assembly.AssemblyHook)
      requires hook.Valid()
      modifies this, store`completedSteps, store`bufferVolume, store`indicatorDrops, store`assemblyCorrect, hook
      ensures hook.Valid() && hook.State() == Assembly.AfterFinish(old(hook.State()))
      ensures store.completedSteps ==
        if IndicatorStep in old(store.completedSteps) then old(store.completedSteps) else old(store.completedSteps) + [IndicatorStep]
      ensures store.bufferVolume == Some(old(hook.bufferAmount))
      ensures store.indicatorDrops == Some(old(hook.dropCount) as int)
      ensures store.assemblyCorrect
      ensures showSummary
    {
      if IndicatorStep !in store.completedSteps {
        store.CompleteStep(IndicatorStep);
      }
      var amount, drops := hook.bufferAmount, hook.dropCount;
      hook.FinishAssembly();
      showSummary := true;
      store.SetBufferVolume(Some(amount));
      store.SetIndicatorDrops(Some(drops as int));
      store.SetAssemblyCorrect(true);
    }
  }

  /**
   * A finish before any drop leaves the hook unfinished, yet the store records a
   * correct assembly. The rendered button is disabled while dropCount < 1
   * (S4_Assembly.jsx:266), so only a direct call of handleFinish gets here.
   */
  method FinishWithoutDrops(view: AssemblyStageView, store: Store, hook: Assembly.AssemblyHook)
    requires hook.Valid() && !hook.completed && hook.dropCount == 0
    modifies view, store, hook
    ensures !hook.completed && store.assemblyCorrect
  {
    view.HandleFinish(store, hook);
  }

  // ---------------------------------------------------------------- warnings

  function BufferThresholdsOf(ac: Option<AssemblyConfig>): Option<BufferThresholds>
  {
    if ac.Some? && ac.value.buffer.Some? then ac.value.buffer.value.qualityThresholds else None
  }

  function IndicatorThresholdsOf(ac: Option<AssemblyConfig>): Option<IndicatorThresholds>
  {
    if ac.Some? && ac.value.indicator.Some? then ac.value.indicator.value.intensityThresholds else None
  }

  /** The summary warnings: at most one about the buffer, then at most one about the indicator. */
  function Warnings(showSummary: bool, ac: Option<AssemblyConfig>, bufferAmount: real, dropCount: int): seq<Warning>
  {
    if !showSummary then []
    else
      var bt := BufferThresholdsOf(ac);
      var it := IndicatorThresholdsOf(ac);
      var buffer :=
        if bt.Some? && bufferAmount < bt.value.poor then [PoorBuffer]
        else if bt.Some? && bufferAmount > bt.value.excess then [ExcessBuffer]
        else [];
      var indicator :=
        if it.Some? && dropCount < it.value.faint then [FaintIndicator]
        else if it.Some? && dropCount > it.value.dark then [DarkIndicator]
        else [];
      buffer + indicator
  }

  /**
   * No warning before the summary; afterwards each warning appears exactly
   * under its threshold condition, the poor buffer one taking precedence
   * over the excess one and the faint indicator one over the dark one.
   */
  lemma WarningsClassified(showSummary: bool, ac: Option<AssemblyConfig>, bufferAmount: real, dropCount: int)
    ensures var w := Warnings(showSummary, ac, bufferAmount, dropCount);
      var bt, it := BufferThresholdsOf(ac), IndicatorThresholdsOf(ac);
      && |w| <= 2
      && (!showSummary ==> w == [])
      && (PoorBuffer in w <==> showSummary && bt.Some? && bufferAmount < bt.value.poor)
      && (ExcessBuffer in w <==> showSummary && bt.Some? && bt.value.poor <= bufferAmount && bufferAmount > bt.value.excess)
      && (FaintIndicator in w <==> showSummary && it.Some? && dropCount < it.value.faint)
      && (DarkIndicator in w <==> showSummary && it.Some? && it.value.faint <= dropCount && dropCount > it.value.dark)
      && !(PoorBuffer in w && ExcessBuffer in w)
      && !(FaintIndicator in w && DarkIndicator in w)
  {
  }

  /**
   * The buffer warning of the summary and the buffer quality the titration
   * stage derives from the same amount agree: a poor warning exactly for a
   * poor buffer, an excess warning exactly for an excess one.
   */
  lemma BufferWarningMatchesQuality(ac: Option<AssemblyConfig>, bufferAmount: real, dropCount: int)
    ensures var w := Warnings(true, ac, bufferAmount, dropCount);
      var q := ExecutionStage.DeriveModifiers(ac, Some(bufferAmount), None).bufferQuality;
      && (PoorBuffer in w <==> q == Some("poor"))
      && (ExcessBuffer in w <==> q == Some("excess"))
  {
    WarningsClassified(true, ac, bufferAmount, dropCount);
    assert "poor" != "excess" && "poor" != "good" && "excess" != "good" by {
      assert "poor"[0] != "excess"[0] && "poor"[0] != "good"[0] && "excess"[0] != "good"[0];
    }
  }

  // ---------------------------------------------------------------- instructions

  /** The highlighted instruction: the sub-step's, but never past the last listed step. */
  function CurrentStepIndex(subStep: int, stepCount: nat): (i: int)
    ensures i <= subStep - 1 && i <= stepCount - 1
    ensures i == subStep - 1 || i == stepCount - 1
  {
    if subStep - 1 <= stepCount - 1 then subStep - 1 else stepCount - 1
  }

  /**
   * For the hook's sub-steps 1 to 4 the index lies within a list of at least
   * as many steps; with no steps listed it is -1.
   */
  lemma CurrentStepIndexInRange(subStep: int, stepCount: nat)
    ensures 1 <= subStep <= 4 && stepCount >= 1 ==> 0 <= CurrentStepIndex(subStep, stepCount) < stepCount
    ensures 1 <= subStep <= stepCount ==> CurrentStepIndex(subStep, stepCount) == subStep - 1
    ensures stepCount == 0 ==> CurrentStepIndex(subStep, stepCount) == -1 || subStep - 1 < -1
  {
  }

  /** `measurement.range[1] || 250`: the hook's capacity, never zero. */
  function StageCapacity(p: Option<Practice>): (c: real)
    ensures c != 0.0
    ensures (p.Some? && p.value.measurement.Some? && p.value.measurement.value.rangeHigh.Some?
             && p.value.measurement.value.rangeHigh.value != 0.0) ==> c == p.value.measurement.value.rangeHigh.value
  {
    var high := if p.Some? && p.value.measurement.Some? then p.value.measurement.value.rangeHigh else None;
    JsOr(high, 250.0)
  }
}
