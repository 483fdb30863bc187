/**
 * The browser-side titration tracker (frontend/src/store/useTitrationStore.js):
 * how much titrant has left the burette, the colour the flask shows, and
 * the endpoint predicates the controls display.
 */
module TitrationStore {
  import opened Base
  import opened Numbers
  import opened Breakpoints
  import opened ColorInterpolation
  import opened Config

  /** Assembly-derived adjustments handed to initTitration; absent keys are None. */
  datatype Modifiers = Modifiers(bufferQuality: Option<string>, indicatorIntensity: Option<string>, indicatorDrops: Option<int>)

  /** The flask colour before any titrant, and after resetTitration. */
  const ResetColor: string := "#CD5C5C"

  /**
   * The modifier pipeline of initTitration: a poor buffer stretches the list
   * near the endpoint, then a faint indicator lightens it or a dark one
   * darkens it. Nothing else changes the list.
   */
  function EffectiveTransitions(ts: seq<Breakpoint>, mods: Modifiers): (r: seq<Breakpoint>)
    ensures |r| == |ts|
    ensures mods.bufferQuality != Some("poor") ==> forall i :: 0 <= i < |ts| ==> r[i].progress == ts[i].progress
    ensures mods.indicatorIntensity != Some("faint") && mods.indicatorIntensity != Some("dark") ==>
      forall i :: 0 <= i < |ts| ==> r[i].color == ts[i].color
    ensures (mods.bufferQuality != Some("poor") && mods.indicatorIntensity != Some("faint")
             && mods.indicatorIntensity != Some("dark")) ==> r == ts
    ensures mods.indicatorIntensity == Some("faint") || mods.indicatorIntensity == Some("dark") ==>
      forall i :: 0 <= i < |ts| ==> IsCanonicalHex(r[i].color)
  {
    var stretched := if mods.bufferQuality == Some("poor") then StretchTransitionsNearEndpoint(ts) else ts;
    if mods.indicatorIntensity == Some("faint") then LightenTransitions(stretched)
    else if mods.indicatorIntensity == Some("dark") then DarkenTransitions(stretched)
    else stretched
  }

  /** initTitration's modifier pipeline, step by step as the store applies it. */
  method ApplyModifiers(ts: seq<Breakpoint>, mods: Modifiers) returns (r: seq<Breakpoint>)
    ensures r == EffectiveTransitions(ts, mods)
  {
    r := ts;
    if mods.bufferQuality == Some("poor") {
      r := StretchTransitionsNearEndpoint(r);
    }
    if mods.indicatorIntensity == Some("faint") {
      r := LightenTransitions(r);
    } else if mods.indicatorIntensity == Some("dark") {
      r := DarkenTransitions(r);
    }
  }

  /** The colour initTitration shows: the first breakpoint's, or "#F0F0F0" for an empty list. */
  function InitialColor(ts: seq<Breakpoint>): string
  {
    if |ts| > 0 then ts[0].color else NoTransitionColor
  }

  /** When the list starts at or after progress 0, the initial colour is the lookup's colour at progress 0. */
  lemma InitialColorIsColorAtZero(ts: seq<Breakpoint>)
    requires |ts| == 0 || 0.0 <= ts[0].progress
    ensures InitialColor(ts) == GetColorAtProgress(ts, 0.0)
  {
  }

  /** The volume addVolume stores: capped at the burette's capacity, then rounded to hundredths. */
  function NextVolume(v: real, amount: real, cap: real): real
  {
    Round2(Min(v + amount, cap))
  }

  /** The progress fraction, or 0 when the expected volume is not positive. */
  function Progress(v: real, e: real): (p: real)
    ensures e <= 0.0 ==> p == 0.0
    ensures e > 0.0 && v >= 0.0 ==> p >= 0.0
    ensures e > 0.0 ==> p * e == v
  {
    if e > 0.0 then v / e else 0.0
  }

  /** isNearEndpoint: within the tolerance of the expected volume, never for an expected volume of 0. */
  predicate NearEndpoint(v: real, e: real, tol: real)
  {
    e != 0.0 && Abs(v - e) <= tol
  }

  /** isPastEndpoint: more than 10% over the expected volume, never for an expected volume of 0. */
  predicate PastEndpoint(v: real, e: real)
  {
    e != 0.0 && v > e * 1.10
  }

  /** The stored volume is always a whole number of hundredths. */
  lemma NextVolumeIsHundredths(v: real, amount: real, cap: real)
    ensures WholeHundredths(NextVolume(v, amount, cap))
  {
    Round2IsHundredths(Min(v + amount, cap));
  }

  /** A capacity that is a whole number of hundredths is never exceeded, whatever is added. */
  lemma NextVolumeBounded(v: real, amount: real, cap: real)
    requires WholeHundredths(cap)
    ensures NextVolume(v, amount, cap) <= cap
  {
    Round2Below(Min(v + amount, cap), cap);
  }

  /** Adding a non-negative amount never lowers a stored volume that is within capacity. */
  lemma NextVolumeMonotone(v: real, amount: real, cap: real)
    requires WholeHundredths(v) && v <= cap && 0.0 <= amount
    ensures v <= NextVolume(v, amount, cap)
  {
    Round2Above(Min(v + amount, cap), v);
  }

  /** Once the burette is at capacity, further additions leave the volume where it is. */
  lemma NextVolumeAtCapacity(cap: real, amount: real)
    requires WholeHundredths(cap) && 0.0 <= amount
    ensures NextVolume(cap, amount, cap) == cap
  {
    Round2Fixed(cap);
  }

  /** With expected volume 20 and tolerance 0.3: 20.2 is near and not past, 23 is past and not near. */
  lemma EndpointExamples()
    ensures NearEndpoint(20.2, 20.0, 0.3) && !PastEndpoint(20.2, 20.0)
    ensures PastEndpoint(23.0, 20.0) && !NearEndpoint(23.0, 20.0, 0.3)
    ensures forall v, tol :: !NearEndpoint(v, 0.0, tol) && !PastEndpoint(v, 0.0)
  {
  }

  /** A tolerance of at most 10% of a positive expected volume makes "near" and "past" exclusive. */
  lemma NearExcludesPast(v: real, e: real, tol: real)
    requires e > 0.0 && tol <= e * 0.1
    ensures NearEndpoint(v, e, tol) ==> !PastEndpoint(v, e)
  {
  }

  class TitrationTracker {
    var volumeAdded: real
    var expectedVolume: real
    var maxBuretteVolume: real
    var dropVolume: real
    var streamVolume: real
    var colorTransitions: seq<Breakpoint>
    var currentColor: string
    var isDropping: bool
    var endpointReached: bool
    var endpointTolerance: real

    /** The stored volume has two decimals and stays within a capacity that has two decimals. */
    predicate Valid()
      reads this
    {
      WholeHundredths(volumeAdded)
      && (0.0 <= maxBuretteVolume && WholeHundredths(maxBuretteVolume) ==> volumeAdded <= maxBuretteVolume)
    }

    /** The store's initial values. */
    constructor ()
      ensures Valid()
      ensures volumeAdded == 0.0 && expectedVolume == 0.0 && maxBuretteVolume == 50.0
      ensures dropVolume == 0.05 && streamVolume == 0.50 && colorTransitions == []
      ensures currentColor == ResetColor && !isDropping && !endpointReached && endpointTolerance == 0.3
    {
      volumeAdded := 0.0;
      expectedVolume := 0.0;
      maxBuretteVolume := 50.0;
      dropVolume := 0.05;
      streamVolume := 0.50;
      colorTransitions := [];
      currentColor := ResetColor;
      isDropping := false;
      endpointReached := false;
      endpointTolerance := 0.3;
      assert (50.0 * 100.0).Floor == 5000;
    }

    /**
     * initTitration: the modifier pipeline over the configured list, the
     * volume back to 0, and every falsy argument or setting replaced by
     * its fallback.
     */
    method InitTitration(cfg: TitrationConfig, expected: Option<real>, mods: Modifiers)
      modifies this
      ensures Valid()
      ensures colorTransitions == EffectiveTransitions(cfg.colorTransitions, mods)
      ensures volumeAdded == 0.0
      ensures expectedVolume == JsOr(expected, cfg.expectedVolume)
      ensures maxBuretteVolume == JsOr(cfg.maxBuretteVolume, 50.0)
      ensures dropVolume == JsOr(cfg.dropVolume, 0.05)
      ensures streamVolume == JsOr(cfg.streamVolume, 0.50)
      ensures endpointTolerance == JsOr(cfg.endpointTolerance, 0.3)
      ensures currentColor == InitialColor(colorTransitions)
      ensures !isDropping && !endpointReached
    {
      ResetSettings(cfg, expected);
      var transitions := ApplyModifiers(cfg.colorTransitions, mods);
      colorTransitions := transitions;
      currentColor := InitialColor(transitions);
    }

    /** initTitration's numeric fields: the volume back to 0 and each setting or its fallback. */
    method ResetSettings(cfg: TitrationConfig, expected: Option<real>)
      modifies this`volumeAdded, this`expectedVolume, this`maxBuretteVolume, this`dropVolume, this`streamVolume
      modifies this`isDropping, this`endpointReached, this`endpointTolerance
      ensures Valid()
      ensures volumeAdded == 0.0
      ensures expectedVolume == JsOr(expected, cfg.expectedVolume)
      ensures maxBuretteVolume == JsOr(cfg.maxBuretteVolume, 50.0)
      ensures dropVolume == JsOr(cfg.dropVolume, 0.05)
      ensures streamVolume == JsOr(cfg.streamVolume, 0.50)
      ensures endpointTolerance == JsOr(cfg.endpointTolerance, 0.3)
      ensures !isDropping && !endpointReached
    {
      assert WholeHundredths(0.0) by { assert 0.0 * 100.0 == 0.0; }
      volumeAdded := 0.0;
      expectedVolume := JsOr(expected, cfg.expectedVolume);
      maxBuretteVolume := JsOr(cfg.maxBuretteVolume, 50.0);
      dropVolume := JsOr(cfg.dropVolume, 0.05);
      streamVolume := JsOr(cfg.streamVolume, 0.50);
      isDropping := false;
      endpointReached := false;
      endpointTolerance := JsOr(cfg.endpointTolerance, 0.3);
    }

    /**
     * addVolume: the capped, rounded volume, and the colour looked up at the
     * capped volume before rounding. Nothing else changes.
     */
    method AddVolume(amount: real)
      requires Valid()
      modifies this`volumeAdded, this`currentColor
      ensures Valid()
      ensures volumeAdded == NextVolume(old(volumeAdded), amount, maxBuretteVolume)
      ensures currentColor ==
        GetColorAtProgress(colorTransitions, Progress(Min(old(volumeAdded) + amount, maxBuretteVolume), expectedVolume))
    {
      var newVolume := Min(volumeAdded + amount, maxBuretteVolume);
      var progress := if expectedVolume > 0.0 then newVolume / expectedVolume else 0.0;
      currentColor := GetColorAtProgress(colorTransitions, progress);
      NextVolumeIsHundredths(volumeAdded, amount, maxBuretteVolume);
      if WholeHundredths(maxBuretteVolume) {
        NextVolumeBounded(volumeAdded, amount, maxBuretteVolume);
      }
      volumeAdded := Round2(newVolume);
    }

    /** addDrop: addVolume of the drop volume. */
    method AddDrop()
      requires Valid()
      modifies this`volumeAdded, this`currentColor
      ensures Valid()
      ensures volumeAdded == NextVolume(old(volumeAdded), old(dropVolume), maxBuretteVolume)
      ensures currentColor ==
        GetColorAtProgress(colorTransitions, Progress(Min(old(volumeAdded) + old(dropVolume), maxBuretteVolume), expectedVolume))
    {
      AddVolume(dropVolume);
    }

    /** addStream: addVolume of the stream volume. */
    method AddStream()
      requires Valid()
      modifies this`volumeAdded, this`currentColor
      ensures Valid()
      ensures volumeAdded == NextVolume(old(volumeAdded), old(streamVolume), maxBuretteVolume)
      ensures currentColor ==
        GetColorAtProgress(colorTransitions, Progress(Min(old(volumeAdded) + old(streamVolume), maxBuretteVolume), expectedVolume))
    {
      AddVolume(streamVolume);
    }

    method SetIsDropping(dropping: bool)
      modifies this`isDropping
      ensures isDropping == dropping
    {
      isDropping := dropping;
    }

    /** getProgress */
    function GetProgress(): real
      reads this
    {
      Progress(volumeAdded, expectedVolume)
    }

    /** isNearEndpoint */
    predicate IsNearEndpoint()
      reads this
    {
      NearEndpoint(volumeAdded, expectedVolume, endpointTolerance)
    }

    /** isPastEndpoint */
    predicate IsPastEndpoint()
      reads this
    {
      PastEndpoint(volumeAdded, expectedVolume)
    }

    /**
     * resetTitration: volume 0, the reset colour, flags cleared; the list,
     * the expected volume, the increments and the limits stay as they are.
     */
    method ResetTitration()
      requires Valid()
      modifies this`volumeAdded, this`currentColor, this`isDropping, this`endpointReached
      ensures Valid()
      ensures volumeAdded == 0.0 && currentColor == ResetColor && !isDropping && !endpointReached
    {
      volumeAdded := 0.0;
      currentColor := ResetColor;
      isDropping := false;
      endpointReached := false;
    }
  }
}
