/**
 * The four-sub-step assembly of stage 4 (frontend/src/hooks/useAssembly.js):
 * 1 confirm the measured water, 2 pour it into the flask, 3 pour buffer,
 * 4 add indicator drops. The animation frames and the drop timeout are
 * discrete events: a started ramp or timeout is recorded as the machine's
 * pending completion, a FrameArrives(r) event carries elapsed / duration,
 * and TimerFires runs the pending timeout.
 */
module Assembly {
  import opened Numbers
  import opened Easing
  import opened ColorInterpolation

  /** Fill level at which the flask counts as full. */
  const MaxFill: real := 0.65

  const WaterColor: string := "#F8F8FF"
  const BufferColor: string := "#F0F0F0"
  const IndicatorColor: string := "#D07070"

  /** The animation or timeout whose completion is still to come. */
  datatype Pending =
    | Idle
    | WaterRamp(startCylinder: real, targetFill: real)
    | BufferRamp(startFill: real, targetFill: real)
    | DropTimer(newCount: nat)

  /**
   * The colour the flask shows, held as the way it was obtained: one of the
   * fixed colours, or the blend for a drop count. Shown gives the
   * "#rrggbb" text the hook stores.
   */
  datatype FlaskColor = Fixed(hex: string) | Drops(count: nat)

  datatype Machine = Machine(
    subStep: int,
    isAnimating: bool,
    fill: real,
    color: FlaskColor,
    cylinder: real,
    bufferAmount: real,
    dropCount: nat,
    completed: bool,
    pending: Pending)

  datatype Event =
    | UserConfirms
    | UserPoursWater
    | UserPoursBuffer(amount: real)
    | UserAddsDrop
    | UserFinishes
    | SliderSet(amount: real)
    | FrameArrives(r: real)
    | TimerFires
    | Unmount
    | UserResets

  /** The hook's initial state, which reset restores. */
  function Initial(measured: real): Machine
  {
    Machine(1, false, 0.0, Fixed(WaterColor), measured, 10.0, 0, false, Idle)
  }

  /** confirmStep1: 1 -> 2, whether or not an animation runs. */
  function AfterConfirm(m: Machine): Machine
  {
    if m.subStep == 1 then m.(subStep := 2) else m
  }

  /** The flask level the whole measured water reaches. */
  function WaterTarget(measured: real, cap: real): real
    requires cap != 0.0
  {
    measured / cap * MaxFill
  }

  /** The flask level a buffer pour aims for, never above MaxFill. */
  function BufferTarget(startFill: real, amount: real, cap: real): (t: real)
    requires cap != 0.0
    ensures t <= MaxFill
  {
    Min(MaxFill, startFill + amount / cap * MaxFill * 0.3)
  }

  /** pourWater: acts only at sub-step 2 with no animation running. */
  function AfterPourWater(m: Machine, measured: real, cap: real): Machine
    requires cap != 0.0
  {
    if m.isAnimating || m.subStep != 2 then m
    else m.(isAnimating := true, pending := WaterRamp(measured, WaterTarget(measured, cap)))
  }

  /** pourBuffer: acts only at sub-step 3 with no animation running; records the amount. */
  function AfterPourBuffer(m: Machine, amount: real, cap: real): Machine
    requires cap != 0.0
  {
    if m.isAnimating || m.subStep != 3 then m
    else m.(bufferAmount := amount, isAnimating := true,
            pending := BufferRamp(m.fill, BufferTarget(m.fill, amount, cap)))
  }

  /** addIndicatorDrop: acts only at sub-step 4 with no animation running; the count is fixed now. */
  function AfterAddDrop(m: Machine): Machine
  {
    if m.isAnimating || m.subStep != 4 then m
    else m.(isAnimating := true, pending := DropTimer(m.dropCount + 1))
  }

  /** The flask colour after n drops: blended towards pale red, saturating at 10 drops. */
  function DropColor(n: nat): string
  {
    InterpolateColorHSL(BufferColor, IndicatorColor, Min(1.0, n as real / 10.0))
  }

  /** The "#rrggbb" text of a flask colour. */
  function Shown(c: FlaskColor): string
  {
    match c
    case Fixed(hex) => hex
    case Drops(n) => DropColor(n)
  }

  /** One animation frame; r is elapsed / duration, capped at 1 as the source does. */
  function AfterFrame(m: Machine, r: real): Machine
  {
    var raw := Min(1.0, r);
    match m.pending
    case WaterRamp(sc, tf) =>
      if raw < 1.0 then
        var e := EaseOutQuad(raw);
        m.(cylinder := sc * (1.0 - e), fill := tf * e)
      else
        m.(cylinder := 0.0, fill := tf, color := Fixed(WaterColor), isAnimating := false, subStep := 3, pending := Idle)
    case BufferRamp(sf, tf) =>
      if raw < 1.0 then m.(fill := sf + (tf - sf) * EaseOutQuad(raw))
      else m.(fill := tf, color := Fixed(BufferColor), isAnimating := false, subStep := 4, pending := Idle)
    case _ => m
  }

  /** The drop timeout firing. */
  function AfterTimer(m: Machine): Machine
  {
    match m.pending
    case DropTimer(n) => m.(dropCount := n, color := Drops(n), isAnimating := false, pending := Idle)
    case _ => m
  }

  /** finishAssembly: completes only at sub-step 4 with at least one drop. */
  function AfterFinish(m: Machine): Machine
  {
    if m.subStep == 4 && m.dropCount >= 1 then m.(completed := true) else m
  }

  /** cleanup cancels the pending frame and timeout; the animating flag stays as it was. */
  function AfterCleanup(m: Machine): Machine
  {
    m.(pending := Idle)
  }

  function Step(m: Machine, e: Event, measured: real, cap: real): Machine
    requires cap != 0.0
  {
    match e
    case UserConfirms => AfterConfirm(m)
    case UserPoursWater => AfterPourWater(m, measured, cap)
    case UserPoursBuffer(a) => AfterPourBuffer(m, a, cap)
    case UserAddsDrop => AfterAddDrop(m)
    case UserFinishes => AfterFinish(m)
    case SliderSet(a) => m.(bufferAmount := a)
    case FrameArrives(r) => AfterFrame(m, r)
    case TimerFires => AfterTimer(m)
    case Unmount => AfterCleanup(m)
    case UserResets => Initial(measured)
  }

  function Run(m: Machine, es: seq<Event>, measured: real, cap: real): Machine
    requires cap != 0.0
    decreases |es|
  {
    if es == [] then m else Run(Step(m, es[0], measured, cap), es[1..], measured, cap)
  }

  // ---------------------------------------------------------------- invariant

  /**
   * The sub-step is 1..4; a pending completion implies an animation and
   * matches the sub-step it completes; a pending drop is the next drop;
   * completion needs sub-step 4 and at least one drop.
   */
  predicate Inv(m: Machine)
  {
    1 <= m.subStep <= 4
    && (m.pending != Idle ==> m.isAnimating)
    && (m.pending.WaterRamp? ==> m.subStep == 2)
    && (m.pending.BufferRamp? ==> m.subStep == 3)
    && (m.pending.DropTimer? ==> m.subStep == 4 && m.pending.newCount == m.dropCount + 1)
    && (m.completed ==> m.subStep == 4 && m.dropCount >= 1)
  }

  lemma StepKeepsInv(m: Machine, e: Event, measured: real, cap: real)
    requires cap != 0.0 && Inv(m)
    ensures Inv(Step(m, e, measured, cap))
  {
  }

  lemma {:induction false} RunKeepsInv(m: Machine, es: seq<Event>, measured: real, cap: real)
    requires cap != 0.0 && Inv(m)
    ensures Inv(Run(m, es, measured, cap))
    decreases |es|
  {
    if es != [] {
      StepKeepsInv(m, es[0], measured, cap);
      RunKeepsInv(Step(m, es[0], measured, cap), es[1..], measured, cap);
    }
  }

  // ---------------------------------------------------------------- progress

  /** Without a reset the sub-step never goes back, and one event moves it by at most one. */
  lemma StepAdvancesByAtMostOne(m: Machine, e: Event, measured: real, cap: real)
    requires cap != 0.0 && Inv(m) && e != UserResets
    ensures m.subStep <= Step(m, e, measured, cap).subStep <= m.subStep + 1
  {
  }

  predicate NoReset(es: seq<Event>)
  {
    forall i :: 0 <= i < |es| ==> es[i] != UserResets
  }

  lemma {:induction false} RunNeverGoesBack(m: Machine, es: seq<Event>, measured: real, cap: real)
    requires cap != 0.0 && Inv(m) && NoReset(es)
    ensures m.subStep <= Run(m, es, measured, cap).subStep
    decreases |es|
  {
    if es != [] {
      StepAdvancesByAtMostOne(m, es[0], measured, cap);
      StepKeepsInv(m, es[0], measured, cap);
      assert NoReset(es[1..]) by {
        forall i | 0 <= i < |es[1..]| ensures es[1..][i] != UserResets {
          assert es[1..][i] == es[i + 1];
        }
      }
      RunNeverGoesBack(Step(m, es[0], measured, cap), es[1..], measured, cap);
    }
  }

  /** User actions are silent no-ops while an animation runs. */
  lemma AnimatingBlocksActions(m: Machine, measured: real, cap: real, amount: real)
    requires cap != 0.0 && m.isAnimating
    ensures Step(m, UserPoursWater, measured, cap) == m
    ensures Step(m, UserPoursBuffer(amount), measured, cap) == m
    ensures Step(m, UserAddsDrop, measured, cap) == m
  {
  }

  /**
   * The drop count changes only when the drop timeout fires (or on reset),
   * and then by exactly one.
   */
  lemma DropCountChangesOnlyOnTimer(m: Machine, e: Event, measured: real, cap: real)
    requires cap != 0.0 && Inv(m)
    ensures e != TimerFires && e != UserResets ==> Step(m, e, measured, cap).dropCount == m.dropCount
    ensures e == TimerFires ==>
      Step(m, e, measured, cap).dropCount == m.dropCount
      || (m.pending.DropTimer? && Step(m, e, measured, cap).dropCount == m.dropCount + 1)
  {
  }

  /** With no completion pending, frames and timeouts change nothing: after reset or cleanup no stale completion can land. */
  lemma IdleIgnoresCompletions(m: Machine, r: real, measured: real, cap: real)
    requires cap != 0.0 && m.pending == Idle
    ensures Step(m, FrameArrives(r), measured, cap) == m
    ensures Step(m, TimerFires, measured, cap) == m
    ensures Step(Step(m, UserResets, measured, cap), FrameArrives(r), measured, cap) == Initial(measured)
    ensures Step(Step(m, UserResets, measured, cap), TimerFires, measured, cap) == Initial(measured)
  {
  }

  /** The colour saturates: any count from 10 on shows the same colour as 10 drops. */
  lemma DropColorSaturates(n: nat)
    requires n >= 10
    ensures DropColor(n) == DropColor(10)
  {
    assert Min(1.0, n as real / 10.0) == 1.0;
  }

  // ---------------------------------------------------------------- ramps

  /** During the water ramp the flask fills from 0 towards the target and never beyond it. */
  lemma WaterRampFill(m: Machine, r: real)
    requires m.pending.WaterRamp? && 0.0 <= r < 1.0 && 0.0 <= m.pending.targetFill
    ensures 0.0 <= AfterFrame(m, r).fill
    ensures AfterFrame(m, r).fill <= m.pending.targetFill
  {
    var e := EaseOutQuad(r);
    var tf := m.pending.targetFill;
    EaseOutQuadInUnit(r);
    assert AfterFrame(m, r).fill == tf * e;
    ProductNonNegative(tf, e);
    ProductAtMost(tf, e);
  }

  /** During the water ramp the cylinder drains from its start level towards 0 and never below it. */
  lemma WaterRampCylinder(m: Machine, r: real)
    requires m.pending.WaterRamp? && 0.0 <= r < 1.0 && 0.0 <= m.pending.startCylinder
    ensures 0.0 <= AfterFrame(m, r).cylinder
    ensures AfterFrame(m, r).cylinder <= m.pending.startCylinder
  {
    var e := EaseOutQuad(r);
    var sc := m.pending.startCylinder;
    EaseOutQuadInUnit(r);
    assert AfterFrame(m, r).cylinder == sc * (1.0 - e);
    ProductNonNegative(sc, 1.0 - e);
    ProductAtMost(sc, 1.0 - e);
  }

  /** During the buffer ramp the fill stays between the start level and the target. */
  lemma BufferRampBetween(m: Machine, r: real)
    requires m.pending.BufferRamp? && 0.0 <= r < 1.0
    ensures Between(AfterFrame(m, r).fill, m.pending.startFill, m.pending.targetFill)
  {
    var e := EaseOutQuad(r);
    EaseOutQuadInUnit(r);
    LerpBetween(m.pending.startFill, m.pending.targetFill, e);
    assert AfterFrame(m, r).fill == m.pending.startFill + (m.pending.targetFill - m.pending.startFill) * e;
  }

  /**
   * With the measured water within capacity and no negative buffer amount,
   * the flask level and every ramp's ends stay within [0, MaxFill].
   */
  predicate FillInRange(m: Machine)
  {
    0.0 <= m.fill <= MaxFill
    && (m.pending.WaterRamp? ==> 0.0 <= m.pending.targetFill <= MaxFill)
    && (m.pending.BufferRamp? ==> 0.0 <= m.pending.startFill <= MaxFill && 0.0 <= m.pending.targetFill <= MaxFill)
  }

  /** Frames report a non-negative elapsed fraction; the buffer slider never goes below 0. */
  predicate WellFormed(e: Event)
  {
    (e.FrameArrives? ==> e.r >= 0.0) && (e.UserPoursBuffer? ==> e.amount >= 0.0)
  }

  lemma WaterTargetInRange(measured: real, cap: real)
    requires 0.0 <= measured <= cap && cap > 0.0
    ensures 0.0 <= WaterTarget(measured, cap) <= MaxFill
  {
    QuotientInUnit(measured, cap);
    ProductNonNegative(measured / cap, MaxFill);
    assert WaterTarget(measured, cap) == MaxFill * (measured / cap);
    ProductAtMost(MaxFill, measured / cap);
  }

  lemma BufferTargetInRange(startFill: real, amount: real, cap: real)
    requires 0.0 <= startFill && 0.0 <= amount && cap > 0.0
    ensures 0.0 <= BufferTarget(startFill, amount, cap) <= MaxFill
  {
    assert amount / cap >= 0.0;
    ProductNonNegative(amount / cap, MaxFill * 0.3);
    assert amount / cap * MaxFill * 0.3 == amount / cap * (MaxFill * 0.3);
  }

  lemma StepKeepsFillInRange(m: Machine, e: Event, measured: real, cap: real)
    requires 0.0 <= measured <= cap && cap > 0.0 && FillInRange(m)
    requires WellFormed(e)
    ensures FillInRange(Step(m, e, measured, cap))
  {
    match e {
      case UserPoursWater =>
        WaterTargetInRange(measured, cap);
      case UserPoursBuffer(a) =>
        BufferTargetInRange(m.fill, a, cap);
      case FrameArrives(r) =>
        var raw := Min(1.0, r);
        if m.pending.WaterRamp? && raw < 1.0 {
          WaterRampFill(m, raw);
        } else if m.pending.BufferRamp? && raw < 1.0 {
          BufferRampBetween(m, raw);
        }
      case _ =>
    }
  }

  lemma {:induction false} RunKeepsFillInRange(m: Machine, es: seq<Event>, measured: real, cap: real)
    requires 0.0 <= measured <= cap && cap > 0.0 && FillInRange(m)
    requires forall i :: 0 <= i < |es| ==> WellFormed(es[i])
    ensures FillInRange(Run(m, es, measured, cap))
    decreases |es|
  {
    if es != [] {
      StepKeepsFillInRange(m, es[0], measured, cap);
      assert forall i :: 0 <= i < |es[1..]| ==> es[1..][i] == es[i + 1];
      RunKeepsFillInRange(Step(m, es[0], measured, cap), es[1..], measured, cap);
    }
  }

  // ---------------------------------------------------------------- a full pass

  lemma {:induction false} RunSteps(m: Machine, xs: seq<Event>, ys: seq<Event>, measured: real, cap: real)
    requires cap != 0.0
    ensures Run(m, xs + ys, measured, cap) == Run(Run(m, xs, measured, cap), ys, measured, cap)
    decreases |xs|
  {
    if xs != [] {
      assert (xs + ys)[0] == xs[0] && (xs + ys)[1..] == xs[1..] + ys;
      RunSteps(Step(m, xs[0], measured, cap), xs[1..], ys, measured, cap);
    } else {
      assert xs + ys == ys;
    }
  }

  lemma RunFour(m: Machine, a: Event, b: Event, c: Event, d: Event, measured: real, cap: real)
    requires cap != 0.0
    ensures Run(m, [a, b, c, d], measured, cap) ==
      Step(Step(Step(Step(m, a, measured, cap), b, measured, cap), c, measured, cap), d, measured, cap)
  {
    var m1 := Step(m, a, measured, cap);
    var m2 := Step(m1, b, measured, cap);
    var m3 := Step(m2, c, measured, cap);
    var m4 := Step(m3, d, measured, cap);
    assert Run(m4, [], measured, cap) == m4;
    assert [d][1..] == [];
    assert Run(m3, [d], measured, cap) == m4;
    assert [c, d][1..] == [d];
    assert Run(m2, [c, d], measured, cap) == m4;
    assert [b, c, d][1..] == [c, d];
    assert Run(m1, [b, c, d], measured, cap) == m4;
    assert [a, b, c, d][1..] == [b, c, d];
  }

  /** A water pour started at sub-step 2 ends with an empty cylinder, the water level, the water colour and sub-step 3. */
  lemma WaterPourCompletes(m: Machine, measured: real, cap: real)
    requires cap != 0.0 && m.subStep == 2 && !m.isAnimating
    ensures Step(Step(m, UserPoursWater, measured, cap), FrameArrives(1.0), measured, cap)
      == m.(cylinder := 0.0, fill := WaterTarget(measured, cap), color := Fixed(WaterColor), subStep := 3, pending := Idle)
  {
  }

  /** A buffer pour started at sub-step 3 records the amount and ends at the buffer target, buffer colour, sub-step 4. */
  lemma BufferPourCompletes(m: Machine, amount: real, measured: real, cap: real)
    requires cap != 0.0 && m.subStep == 3 && !m.isAnimating
    ensures Step(Step(m, UserPoursBuffer(amount), measured, cap), FrameArrives(1.0), measured, cap)
      == m.(bufferAmount := amount, fill := BufferTarget(m.fill, amount, cap), color := Fixed(BufferColor), subStep := 4, pending := Idle)
  {
  }

  /** A drop added at sub-step 4 lands when its timeout fires: one more drop and the matching colour. */
  lemma DropLands(m: Machine, measured: real, cap: real)
    requires cap != 0.0 && m.subStep == 4 && !m.isAnimating
    ensures Step(Step(m, UserAddsDrop, measured, cap), TimerFires, measured, cap)
      == m.(dropCount := m.dropCount + 1, color := Drops(m.dropCount + 1), pending := Idle)
  {
    var m1 := Step(m, UserAddsDrop, measured, cap);
    assert m1 == m.(isAnimating := true, pending := DropTimer(m.dropCount + 1));
    var m2 := Step(m1, TimerFires, measured, cap);
    assert m2 == AfterTimer(m1);
  }

  /**
   * The whole assembly from the initial state: confirm, pour the water to
   * the end, pour a buffer amount to the end, add one drop and let it land,
   * finish. The machine ends completed at sub-step 4 with one drop, an empty
   * cylinder, the recorded buffer amount and the buffer target as fill.
   */
  lemma HappyPath(measured: real, cap: real, amount: real)
    requires cap != 0.0
    ensures var es := [UserConfirms, UserPoursWater, FrameArrives(1.0), UserPoursBuffer(amount),
                       FrameArrives(1.0), UserAddsDrop, TimerFires, UserFinishes];
      var m := Run(Initial(measured), es, measured, cap);
      m.completed && m.subStep == 4 && m.dropCount == 1 && m.cylinder == 0.0
      && m.bufferAmount == amount && m.fill == BufferTarget(WaterTarget(measured, cap), amount, cap)
      && m.color == Drops(1) && !m.isAnimating && m.pending == Idle
  {
    var m0 := Initial(measured);
    var m1 := Step(m0, UserConfirms, measured, cap);
    var m2 := Step(m1, UserPoursWater, measured, cap);
    var m3 := Step(m2, FrameArrives(1.0), measured, cap);
    WaterPourCompletes(m1, measured, cap);
    var m4 := Step(m3, UserPoursBuffer(amount), measured, cap);
    var m5 := Step(m4, FrameArrives(1.0), measured, cap);
    BufferPourCompletes(m3, amount, measured, cap);
    var m6 := Step(m5, UserAddsDrop, measured, cap);
    var m7 := Step(m6, TimerFires, measured, cap);
    DropLands(m5, measured, cap);
    var m8 := Step(m7, UserFinishes, measured, cap);
    RunFour(m0, UserConfirms, UserPoursWater, FrameArrives(1.0), UserPoursBuffer(amount), measured, cap);
    RunFour(m4, FrameArrives(1.0), UserAddsDrop, TimerFires, UserFinishes, measured, cap);
    RunSteps(m0, [UserConfirms, UserPoursWater, FrameArrives(1.0), UserPoursBuffer(amount)],
             [FrameArrives(1.0), UserAddsDrop, TimerFires, UserFinishes], measured, cap);
    assert [UserConfirms, UserPoursWater, FrameArrives(1.0), UserPoursBuffer(amount)]
         + [FrameArrives(1.0), UserAddsDrop, TimerFires, UserFinishes]
        == [UserConfirms, UserPoursWater, FrameArrives(1.0), UserPoursBuffer(amount),
            FrameArrives(1.0), UserAddsDrop, TimerFires, UserFinishes];
  }

  // ---------------------------------------------------------------- the hook

  /**
   * The hook's state: the eight React state fields, and the pending
   * frame or timeout that rafRef and animTimeout point to.
   */
  class AssemblyHook {
    const measuredValue: real
    const maxCapacity: real
    var currentSubStep: int
    var isAnimating: bool
    var erlenmeyerFill: real
    var erlenmeyerColor: FlaskColor
    var cylinderLevel: real
    var bufferAmount: real
    var dropCount: nat
    var completed: bool
    var pending: Pending

    /** The colour text the hook's erlenmeyerColor holds. */
    function ErlenmeyerColor(): string
      reads this
    {
      Shown(erlenmeyerColor)
    }

    function State(): Machine
      reads this
    {
      Machine(currentSubStep, isAnimating, erlenmeyerFill, erlenmeyerColor, cylinderLevel,
              bufferAmount, dropCount, completed, pending)
    }

    predicate Valid()
      reads this
    {
      maxCapacity != 0.0 && Inv(State())
    }

    constructor (measured: real, cap: real)
      requires cap != 0.0
      ensures Valid() && measuredValue == measured && maxCapacity == cap
      ensures State() == Initial(measured)
    {
      measuredValue := measured;
      maxCapacity := cap;
      currentSubStep := 1;
      isAnimating := false;
      erlenmeyerFill := 0.0;
      erlenmeyerColor := Fixed(WaterColor);
      cylinderLevel := measured;
      bufferAmount := 10.0;
      dropCount := 0;
      completed := false;
      pending := Idle;
    }

    method ConfirmStep1()
      requires Valid()
      modifies this
      ensures Valid() && State() == AfterConfirm(old(State()))
    {
      if currentSubStep == 1 {
        currentSubStep := 2;
      }
    }

    method PourWater()
      requires Valid()
      modifies this
      ensures Valid() && State() == AfterPourWater(old(State()), measuredValue, maxCapacity)
    {
      if isAnimating || currentSubStep != 2 {
        return;
      }
      isAnimating := true;
      var targetFill := measuredValue / maxCapacity * MaxFill;
      pending := WaterRamp(measuredValue, targetFill);
    }

    method PourBuffer(amount: real)
      requires Valid()
      modifies this
      ensures Valid() && State() == AfterPourBuffer(old(State()), amount, maxCapacity)
    {
      if isAnimating || currentSubStep != 3 {
        return;
      }
      bufferAmount := amount;
      isAnimating := true;
      var startFill := erlenmeyerFill;
      var addedFill := amount / maxCapacity * MaxFill * 0.3;
      pending := BufferRamp(startFill, Min(MaxFill, startFill + addedFill));
    }

    method AddIndicatorDrop()
      requires Valid()
      modifies this
      ensures Valid() && State() == AfterAddDrop(old(State()))
    {
      if isAnimating || currentSubStep != 4 {
        return;
      }
      isAnimating := true;
      pending := DropTimer(dropCount + 1);
    }

    /** An animation frame callback; r is elapsed / duration. */
    method Frame(r: real)
      requires Valid()
      modifies this
      ensures Valid() && State() == AfterFrame(old(State()), r)
    {
      var rawProgress := Min(1.0, r);
      match pending {
        case WaterRamp(startCylinder, targetFill) =>
          var progress := EaseOutQuad(rawProgress);
          cylinderLevel := startCylinder * (1.0 - progress);
          erlenmeyerFill := targetFill * progress;
          if rawProgress >= 1.0 {
            cylinderLevel := 0.0;
            erlenmeyerFill := targetFill;
            erlenmeyerColor := Fixed(WaterColor);
            isAnimating := false;
            currentSubStep := 3;
            pending := Idle;
          }
        case BufferRamp(startFill, targetFill) =>
          erlenmeyerFill := startFill + (targetFill - startFill) * EaseOutQuad(rawProgress);
          if rawProgress >= 1.0 {
            erlenmeyerFill := targetFill;
            erlenmeyerColor := Fixed(BufferColor);
            isAnimating := false;
            currentSubStep := 4;
            pending := Idle;
          }
        case _ =>
      }
    }

    /** The drop timeout's callback. */
    method TimerFired()
      requires Valid()
      modifies this
      ensures Valid() && State() == AfterTimer(old(State()))
    {
      if pending.DropTimer? {
        var newCount := pending.newCount;
        dropCount := newCount;
        erlenmeyerColor := Drops(newCount);
        isAnimating := false;
        pending := Idle;
      }
    }

    method FinishAssembly()
      requires Valid()
      modifies this
      ensures Valid() && State() == AfterFinish(old(State()))
    {
      if currentSubStep == 4 && dropCount >= 1 {
        completed := true;
      }
    }

    method SetBufferAmount(amount: real)
      requires Valid()
      modifies this
      ensures Valid() && State() == old(State()).(bufferAmount := amount)
    {
      bufferAmount := amount;
    }

    method Cleanup()
      requires Valid()
      modifies this
      ensures Valid() && State() == AfterCleanup(old(State()))
    {
      pending := Idle;
    }

    method Reset()
      requires Valid()
      modifies this
      ensures Valid() && State() == Initial(measuredValue)
    {
      pending := Idle;
      currentSubStep := 1;
      isAnimating := false;
      erlenmeyerFill := 0.0;
      erlenmeyerColor := Fixed(WaterColor);
      cylinderLevel := measuredValue;
      bufferAmount := 10.0;
      dropCount := 0;
      completed := false;
    }
  }
}
