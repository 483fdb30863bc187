/**
 * The browser's session store (frontend/src/store/useSimulatorStore.js):
 * the chosen practice, the material selections, the assembly record and the
 * results, each replaced wholesale by the store's actions.
 */
module SimulatorStore {
  import opened Base
  import opened Config
  import ReportGenerator

  /** list.filter(x => x !== id): every occurrence of id removed, the rest in order. */
  function Remove(xs: seq<string>, id: string): (r: seq<string>)
    ensures id !in r
    ensures forall x :: x in r <==> x in xs && x != id
    ensures id !in xs ==> r == xs
    ensures |r| <= |xs|
    decreases |xs|
  {
    if xs == [] then []
    else if xs[0] == id then Remove(xs[1..], id)
    else
      var rest := Remove(xs[1..], id);
      assert id !in xs ==> [xs[0]] + xs[1..] == xs;
      [xs[0]] + rest
  }

  /** The toggle of the selection lists: remove every occurrence of a present id, append an absent one. */
  function Toggle(xs: seq<string>, id: string): seq<string>
  {
    if id in xs then Remove(xs, id) else xs + [id]
  }

  /** No id appears twice: the head is not in the tail, and so on down the list. */
  predicate Distinct(xs: seq<string>)
    decreases |xs|
  {
    xs == [] || (xs[0] !in xs[1..] && Distinct(xs[1..]))
  }

  lemma {:induction false} RemoveConcat(xs: seq<string>, ys: seq<string>, id: string)
    ensures Remove(xs + ys, id) == Remove(xs, id) + Remove(ys, id)
    decreases |xs|
  {
    if xs == [] {
      assert xs + ys == ys;
    } else {
      assert (xs + ys)[0] == xs[0] && (xs + ys)[1..] == xs[1..] + ys;
      RemoveConcat(xs[1..], ys, id);
    }
  }

  lemma {:induction false} RemoveKeepsDistinct(xs: seq<string>, id: string)
    requires Distinct(xs)
    ensures Distinct(Remove(xs, id))
    decreases |xs|
  {
    if xs != [] {
      RemoveKeepsDistinct(xs[1..], id);
      if xs[0] != id {
        var rest := Remove(xs[1..], id);
        assert ([xs[0]] + rest)[1..] == rest;
      }
    }
  }

  lemma {:induction false} AppendKeepsDistinct(xs: seq<string>, id: string)
    requires Distinct(xs) && id !in xs
    ensures Distinct(xs + [id])
    decreases |xs|
  {
    if xs == [] {
      assert Distinct([id][1..]);
    } else {
      assert (xs + [id])[1..] == xs[1..] + [id];
      AppendKeepsDistinct(xs[1..], id);
    }
  }

  /**
   * Toggling puts id in the list exactly when it was absent and leaves the
   * membership of every other id as it was; an absent id goes to the end.
   */
  lemma ToggleMembership(xs: seq<string>, id: string)
    ensures id in Toggle(xs, id) <==> id !in xs
    ensures forall x :: x != id ==> (x in Toggle(xs, id) <==> x in xs)
    ensures id !in xs ==> Toggle(xs, id) == xs + [id]
  {
  }

  /** Toggling an absent id twice gives the original list back exactly. */
  lemma ToggleTwiceRestores(xs: seq<string>, id: string)
    requires id !in xs
    ensures Toggle(Toggle(xs, id), id) == xs
  {
    assert id in xs + [id];
    RemoveConcat(xs, [id], id);
    assert Remove([id], id) == [];
  }

  /** A list with no repeated id keeps that property under toggling. */
  lemma ToggleKeepsDistinct(xs: seq<string>, id: string)
    requires Distinct(xs)
    ensures Distinct(Toggle(xs, id))
  {
    if id in xs {
      RemoveKeepsDistinct(xs, id);
    } else {
      AppendKeepsDistinct(xs, id);
    }
  }

  /** The store; the report is the server's report, held as returned. */
  class Store {
    var practiceId: Option<int>
    var practiceConfig: Option<Practice>
    var sessionId: Option<string>
    var currentStage: int
    var selectedInstruments: seq<string>
    var selectedReagents: seq<string>
    var materialsCorrect: Option<bool>
    var measuredValue: Option<real>
    var measuredUnit: Option<string>
    var completedSteps: seq<string>
    var assemblyCorrect: bool
    var bufferVolume: Option<real>
    var indicatorDrops: Option<int>
    var recordedVolume: Option<real>
    var studentCalculation: Option<real>
    var correctCalculation: Option<real>
    var percentError: Option<real>
    var totalScore: Option<real>
    var report: Option<ReportGenerator.Report>

    /** Only the toggles change the selection lists, and they never repeat an id. */
    predicate Valid()
      reads this
    {
      Distinct(selectedInstruments) && Distinct(selectedReagents)
    }

    /** Every field setPractice clears: stage 1, empty lists, no flags, no results. */
    predicate Cleared()
      reads this
    {
      SelectionsCleared() && ResultsCleared()
    }

    /** The initial store: nothing chosen, no session. */
    constructor ()
      ensures Cleared()
      ensures Valid()
      ensures practiceId == None && practiceConfig == None && sessionId == None
    {
      practiceId, practiceConfig, sessionId := None, None, None;
      currentStage := 1;
      selectedInstruments, selectedReagents, materialsCorrect := [], [], None;
      measuredValue, measuredUnit := None, None;
      completedSteps, assemblyCorrect, bufferVolume, indicatorDrops := [], false, None, None;
      recordedVolume, studentCalculation, correctCalculation, percentError := None, None, None, None;
      totalScore, report := None, None;
    }

    /** setPractice: the new practice, everything else cleared, except that the session id is kept. */
    method SetPractice(id: int, config: Practice)
      modifies this
      ensures Cleared()
      ensures Valid()
      ensures practiceId == Some(id) && practiceConfig == Some(config)
      ensures sessionId == old(sessionId)
    {
      practiceId, practiceConfig := Some(id), Some(config);
      ClearSelections();
      ClearResults();
    }

    /** The selections and the assembly record, as setPractice and reset clear them. */
    predicate SelectionsCleared()
      reads this
    {
      currentStage == 1
      && selectedInstruments == [] && selectedReagents == [] && materialsCorrect == None
      && measuredValue == None && measuredUnit == None
      && completedSteps == [] && !assemblyCorrect && bufferVolume == None && indicatorDrops == None
    }

    /** The results, as setPractice and reset clear them. */
    predicate ResultsCleared()
      reads this
    {
      recordedVolume == None && studentCalculation == None && correctCalculation == None
      && percentError == None && totalScore == None && report == None
    }

    /** The shared part of setPractice and reset, first half. */
    method ClearSelections()
      modifies this`currentStage, this`selectedInstruments, this`selectedReagents, this`materialsCorrect,
               this`measuredValue, this`measuredUnit, this`completedSteps, this`assemblyCorrect,
               this`bufferVolume, this`indicatorDrops
      ensures SelectionsCleared()
    {
      currentStage := 1;
      selectedInstruments, selectedReagents, materialsCorrect := [], [], None;
      measuredValue, measuredUnit := None, None;
      completedSteps, assemblyCorrect, bufferVolume, indicatorDrops := [], false, None, None;
    }

    /** The shared part of setPractice and reset, second half. */
    method ClearResults()
      modifies this`recordedVolume, this`studentCalculation, this`correctCalculation, this`percentError,
               this`totalScore, this`report
      ensures ResultsCleared()
    {
      recordedVolume, studentCalculation, correctCalculation, percentError := None, None, None, None;
      totalScore, report := None, None;
    }

    method SetSessionId(id: string)
      modifies this`sessionId
      ensures sessionId == Some(id)
    {
      sessionId := Some(id);
    }

    method SetCurrentStage(stage: int)
      modifies this`currentStage
      ensures currentStage == stage
    {
      currentStage := stage;
    }

    /** toggleInstrument: the reagent list is untouched. */
    method ToggleInstrument(id: string)
      requires Valid()
      modifies this`selectedInstruments
      ensures Valid()
      ensures selectedInstruments == Toggle(old(selectedInstruments), id)
    {
      ToggleKeepsDistinct(selectedInstruments, id);
      selectedInstruments := if id in selectedInstruments then Remove(selectedInstruments, id) else selectedInstruments + [id];
    }

    /** toggleReagent: the instrument list is untouched. */
    method ToggleReagent(id: string)
      requires Valid()
      modifies this`selectedReagents
      ensures Valid()
      ensures selectedReagents == Toggle(old(selectedReagents), id)
    {
      ToggleKeepsDistinct(selectedReagents, id);
      selectedReagents := if id in selectedReagents then Remove(selectedReagents, id) else selectedReagents + [id];
    }

    method SetMaterialsCorrect(correct: Option<bool>)
      modifies this`materialsCorrect
      ensures materialsCorrect == correct
    {
      materialsCorrect := correct;
    }

    method SetMeasurement(value: real, unit: string)
      modifies this`measuredValue, this`measuredUnit
      ensures measuredValue == Some(value) && measuredUnit == Some(unit)
    {
      measuredValue, measuredUnit := Some(value), Some(unit);
    }

    /** completeStep: appends without looking, so the same id can be recorded twice. */
    method CompleteStep(stepId: string)
      modifies this`completedSteps
      ensures completedSteps == old(completedSteps) + [stepId]
    {
      completedSteps := completedSteps + [stepId];
    }

    method SetAssemblyCorrect(correct: bool)
      modifies this`assemblyCorrect
      ensures assemblyCorrect == correct
    {
      assemblyCorrect := correct;
    }

    method SetBufferVolume(vol: Option<real>)
      modifies this`bufferVolume
      ensures bufferVolume == vol
    {
      bufferVolume := vol;
    }

    method SetIndicatorDrops(drops: Option<int>)
      modifies this`indicatorDrops
      ensures indicatorDrops == drops
    {
      indicatorDrops := drops;
    }

    method SetRecordedVolume(vol: Option<real>)
      modifies this`recordedVolume
      ensures recordedVolume == vol
    {
      recordedVolume := vol;
    }

    method SetCalculationResults(student: Option<real>, correct: Option<real>, error: Option<real>)
      modifies this`studentCalculation, this`correctCalculation, this`percentError
      ensures studentCalculation == student && correctCalculation == correct && percentError == error
    {
      studentCalculation, correctCalculation, percentError := student, correct, error;
    }

    /** setReport: the report, and its total_score as the store's total (none without a report). */
    method SetReport(r: Option<ReportGenerator.Report>)
      modifies this`report, this`totalScore
      ensures report == r
      ensures totalScore == (if r.Some? then Some(r.value.totalScore) else None)
    {
      report := r;
      totalScore := if r.Some? then Some(r.value.totalScore) else None;
    }

    /** reset: every field back to its initial value, the session id and the practice included. */
    method Reset()
      modifies this
      ensures Cleared()
      ensures Valid()
      ensures practiceId == None && practiceConfig == None && sessionId == None
    {
      practiceId, practiceConfig, sessionId := None, None, None;
      ClearSelections();
      ClearResults();
    }
  }

  /** Two toggles of a fresh id on a store leave its instrument list as it was. */
  method ToggleInstrumentTwice(s: Store, id: string)
    requires s.Valid() && id !in s.selectedInstruments
    modifies s
    ensures s.Valid() && s.selectedInstruments == old(s.selectedInstruments)
    ensures s.selectedReagents == old(s.selectedReagents)
  {
    s.ToggleInstrument(id);
    s.ToggleInstrument(id);
    ToggleTwiceRestores(old(s.selectedInstruments), id);
  }
}
