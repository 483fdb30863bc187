/**
 * The measurement stage (frontend/src/components/stages/S3_Measurement.jsx):
 * the student fills a measuring cylinder by holding a button (a timer adds
 * 2 mL per tick), nudges the volume by fixed steps, empties it, and confirms
 * a volume of at least the practice's minimum. Each timer tick is one event.
 */
module MeasurementStage {
  import opened Base
  import opened Numbers
  import opened Config
  import opened SimulatorStore

  /** `measurement?.range?.[0] || 10` */
  function MinVolume(m: Option<MeasurementConfig>): real
  {
    JsOr(if m.Some? then m.value.rangeLow else None, 10.0)
  }

  /** `measurement?.range?.[1] || 250` */
  function MaxVolume(m: Option<MeasurementConfig>): real
  {
    JsOr(if m.Some? then m.value.rangeHigh else None, 250.0)
  }

  /** `measurement?.unit || 'mL'` */
  function UnitOf(m: Option<MeasurementConfig>): (u: string)
    ensures u != ""
    ensures u == "mL" || (m.Some? && m.value.unit == Some(u))
  {
    if m.Some? && PyTruthyString(m.value.unit) then m.value.unit.value else "mL"
  }

  /** One hold-to-fill tick: 2 more, capped at the maximum, otherwise rounded to tenths. */
  function FillStep(prev: real, maxVal: real): real
  {
    var next := prev + 2.0;
    if next > maxVal then maxVal else Round1(next)
  }

  /** adjustVolume's updater: rounded to tenths, then clamped into [0, maxVal]. */
  function Adjusted(prev: real, delta: real, maxVal: real): real
  {
    Max(0.0, Min(maxVal, Round1(prev + delta)))
  }

  /** The volume after n ticks of the fill timer. */
  function Ticks(v: real, n: nat, maxVal: real): real
    decreases n
  {
    if n == 0 then v else Ticks(FillStep(v, maxVal), n - 1, maxVal)
  }

  // ---------------------------------------------------------------- tenths

  lemma TenthsClosed(a: real, b: real)
    requires WholeTenths(a) && WholeTenths(b)
    ensures WholeTenths(a + b) && WholeTenths(-b) && WholeTenths(a - b)
  {
    var ka, kb := (a * 10.0).Floor, (b * 10.0).Floor;
    assert a * 10.0 == ka as real && b * 10.0 == kb as real;
    assert (a + b) * 10.0 == a * 10.0 + b * 10.0;
    assert (a - b) * 10.0 == a * 10.0 - b * 10.0;
    assert (-b) * 10.0 == -(b * 10.0);
    assert ((ka + kb) as real).Floor == ka + kb;
    assert ((ka - kb) as real).Floor == ka - kb;
    assert ((-kb) as real).Floor == -kb;
  }

  lemma Round1Fixed(c: real)
    requires WholeTenths(c)
    ensures Round1(c) == c
  {
    Round1Below(c, c);
    Round1Above(c, c);
  }

  // ---------------------------------------------------------------- properties

  /**
   * With a non-negative maximum in whole tenths, a tick from a volume in
   * [0, maxVal] in whole tenths adds exactly 2 up to the maximum, which it
   * then keeps.
   */
  lemma FillStepBounded(prev: real, maxVal: real)
    requires 0.0 <= prev <= maxVal && WholeTenths(prev) && WholeTenths(maxVal)
    ensures FillStep(prev, maxVal) == Min(prev + 2.0, maxVal)
    ensures 0.0 <= FillStep(prev, maxVal) <= maxVal && WholeTenths(FillStep(prev, maxVal))
    ensures prev < maxVal ==> prev < FillStep(prev, maxVal)
  {
    assert WholeTenths(2.0) by { assert (2.0 * 10.0).Floor == 20; }
    TenthsClosed(prev, 2.0);
    if prev + 2.0 <= maxVal {
      Round1Fixed(prev + 2.0);
    }
  }

  /** Holding the button from an empty cylinder: after n ticks the volume is min(2n, maxVal). */
  lemma {:induction false} TicksFromEmpty(n: nat, maxVal: real)
    requires 0.0 <= maxVal && WholeTenths(maxVal)
    ensures Ticks(0.0, n, maxVal) == Min(2.0 * n as real, maxVal)
  {
    TicksFrom(0.0, n, maxVal);
  }

  lemma {:induction false} TicksFrom(v: real, n: nat, maxVal: real)
    requires 0.0 <= v <= maxVal && WholeTenths(v) && WholeTenths(maxVal)
    ensures Ticks(v, n, maxVal) == Min(v + 2.0 * n as real, maxVal)
    decreases n
  {
    if n > 0 {
      FillStepBounded(v, maxVal);
      TicksFrom(FillStep(v, maxVal), n - 1, maxVal);
    }
  }

  /** adjustVolume never leaves [0, maxVal] for a non-negative maximum, and keeps tenths. */
  lemma AdjustedBounded(prev: real, delta: real, maxVal: real)
    requires 0.0 <= maxVal
    ensures 0.0 <= Adjusted(prev, delta, maxVal) <= maxVal
    ensures WholeTenths(maxVal) ==> WholeTenths(Adjusted(prev, delta, maxVal))
  {
    Round1IsTenths(prev + delta);
    assert WholeTenths(0.0);
  }

  /** A step that stays in range is undone by the opposite step. */
  lemma AdjustUndone(v: real, d: real, maxVal: real)
    requires WholeTenths(v) && WholeTenths(d)
    requires 0.0 <= v <= maxVal && 0.0 <= v + d <= maxVal
    ensures Adjusted(v, d, maxVal) == v + d
    ensures Adjusted(Adjusted(v, d, maxVal), -d, maxVal) == v
  {
    TenthsClosed(v, d);
    Round1Fixed(v + d);
    assert v + d + -d == v;
    Round1Fixed(v);
  }

  // ---------------------------------------------------------------- the stage

  /** The interval ids left after clearInterval(id). */
  function Cleared(ids: seq<nat>, id: nat): (r: seq<nat>)
    ensures forall k :: k in r <==> k in ids && k != id
    ensures |r| <= |ids|
  {
    if ids == [] then []
    else if ids[0] == id then Cleared(ids[1..], id)
    else [ids[0]] + Cleared(ids[1..], id)
  }

  class MeasurementView {
    const minVal: real
    const maxVal: real
    const unit: string
    var volume: real
    var confirmed: bool
    /** The ids of the fill intervals the browser is still running. */
    var intervals: seq<nat>
    /** `fillInterval.current`: the id of the newest interval, or null. */
    var fillInterval: Option<nat>
    /** The id the next setInterval returns. */
    var nextInterval: nat

    /**
     * With a non-negative maximum in whole tenths, the volume stays a whole
     * number of tenths in [0, maxVal]; the ref names a running interval, and
     * every running id was handed out already.
     */
    predicate Valid()
      reads this
    {
      && (0.0 <= maxVal && WholeTenths(maxVal) ==> 0.0 <= volume <= maxVal && WholeTenths(volume))
      && (fillInterval.Some? ==> fillInterval.value in intervals)
      && (forall k :: k in intervals ==> k < nextInterval)
    }

    constructor (m: Option<MeasurementConfig>)
      ensures Valid()
      ensures minVal == MinVolume(m) && maxVal == MaxVolume(m) && unit == UnitOf(m)
      ensures volume == 0.0 && !confirmed
      ensures intervals == [] && fillInterval == None && nextInterval == 0
    {
      minVal, maxVal, unit := MinVolume(m), MaxVolume(m), UnitOf(m);
      volume, confirmed := 0.0, false;
      intervals, fillInterval, nextInterval := [], None, 0;
      assert WholeTenths(0.0);
    }

    /**
     * startFilling: unless confirmed, starts a new interval and stores its id
     * in the ref, overwriting the id of an interval that may still run.
     */
    method StartFilling()
      requires Valid()
      modifies this`intervals, this`fillInterval, this`nextInterval
      ensures Valid()
      ensures confirmed ==>
        intervals == old(intervals) && fillInterval == old(fillInterval) && nextInterval == old(nextInterval)
      ensures !confirmed ==>
        && intervals == old(intervals) + [old(nextInterval)]
        && fillInterval == Some(old(nextInterval))
        && nextInterval == old(nextInterval) + 1
    {
      if !confirmed {
        intervals := intervals + [nextInterval];
        fillInterval := Some(nextInterval);
        nextInterval := nextInterval + 1;
      }
    }

    /** stopFilling (also the global pointer-release net and unmount): clears only the interval the ref names. */
    method StopFilling()
      requires Valid()
      modifies this`intervals, this`fillInterval
      ensures Valid()
      ensures fillInterval == None
      ensures intervals == if old(fillInterval).Some? then Cleared(old(intervals), old(fillInterval).value) else old(intervals)
    {
      if fillInterval.Some? {
        intervals := Cleared(intervals, fillInterval.value);
        fillInterval := None;
      }
    }

    /** One tick of interval `id`; the interval's updater does not look at `confirmed`. */
    method FillTick(id: nat)
      requires Valid()
      modifies this`volume
      ensures Valid()
      ensures volume == if id in intervals then FillStep(old(volume), maxVal) else old(volume)
    {
      if id in intervals {
        if 0.0 <= maxVal && WholeTenths(maxVal) {
          FillStepBounded(volume, maxVal);
        }
        volume := FillStep(volume, maxVal);
      }
    }

    /** adjustVolume: a no-op once confirmed. */
    method AdjustVolume(delta: real)
      requires Valid()
      modifies this`volume
      ensures Valid()
      ensures volume == if confirmed then old(volume) else Adjusted(old(volume), delta, maxVal)
    {
      if !confirmed {
        if 0.0 <= maxVal {
          AdjustedBounded(volume, delta, maxVal);
        }
        volume := Adjusted(volume, delta, maxVal);
      }
    }

    /** handleReset: empties the cylinder unless confirmed. */
    method HandleReset()
      requires Valid()
      modifies this`volume
      ensures Valid()
      ensures volume == if confirmed then old(volume) else 0.0
    {
      if !confirmed {
        volume := 0.0;
        assert WholeTenths(0.0);
      }
    }

    /**
     * handleConfirm: nothing below the minimum; otherwise, when the server
     * accepts the measurement, the store receives the volume and its unit and
     * the stage locks. A refused request changes nothing.
     */
    method HandleConfirm(store: Store, serverAccepts: bool)
      modifies this`confirmed, store`measuredValue, store`measuredUnit
      ensures volume < minVal || !serverAccepts ==>
        confirmed == old(confirmed) && store.measuredValue == old(store.measuredValue) && store.measuredUnit == old(store.measuredUnit)
      ensures volume >= minVal && serverAccepts ==>
        confirmed && store.measuredValue == Some(volume) && store.measuredUnit == Some(unit)
    {
      if volume < minVal {
        return;
      }
      if serverAccepts {
        store.SetMeasurement(volume, unit);
        confirmed := true;
      }
    }
  }

  /** Once confirmed, neither a nudge nor the reset button changes the volume. */
  method ConfirmedLocksVolume(view: MeasurementView, delta: real)
    requires view.Valid() && view.confirmed
    modifies view
    ensures view.volume == old(view.volume)
  {
    view.AdjustVolume(delta);
    view.HandleReset();
  }

  /**
   * Holding the button with two pointers starts two intervals, and the ref
   * keeps only the second. Releasing clears that one, so the first keeps
   * running: its next tick still adds 2.
   */
  method SecondPressLeaksInterval() returns (running: seq<nat>, ref: Option<nat>, v: real)
    ensures running == [0] && ref == None
    ensures v == 2.0
  {
    var view := new MeasurementView(None);
    view.StartFilling();
    view.StartFilling();
    view.StopFilling();
    assert view.intervals == [0];
    assert WholeTenths(2.0) by { assert (2.0 * 10.0).Floor == 20; }
    Round1Fixed(2.0);
    view.FillTick(0);
    running, ref, v := view.intervals, view.fillInterval, view.volume;
  }

  /** One press and one release leave no interval running. */
  method PressReleaseStops() returns (running: seq<nat>, v: real)
    ensures running == [] && v == 0.0
  {
    var view := new MeasurementView(None);
    view.StartFilling();
    view.StopFilling();
    view.FillTick(0);
    running, v := view.intervals, view.volume;
  }
}
