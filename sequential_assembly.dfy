/**
 * The click-through assembly of stage 4 for practices whose assembly is an
 * ordered list of steps (frontend/src/hooks/useSequentialAssembly.js).
 * Each click executes the current step: "cover" and "add_indicator" apply
 * the step's visual patch after a timeout; every other action ramps the
 * flask's fill level over an animation and advances the step after a
 * separate timeout.
 *
 * Animation frames and timeouts are discrete events. The machine keeps the
 * running ramp (what rafRef points to), the list of timeouts the browser
 * still holds for the hook, the id animTimeout holds, and the next timeout
 * id the browser will hand out. Frame(r) carries elapsed / duration; Fire(id)
 * runs the timeout with that id if it is still pending.
 */
module SequentialAssembly {
  import opened Base
  import opened Numbers
  import opened Easing

  const EmptyFlaskColor: string := "#F8F8FF"

  /** Delays, in milliseconds, of the instant actions and of the two pour kinds. */
  const CoverDelay: nat := 600
  const IndicatorDelay: nat := 800
  const TransferDuration: nat := 2000
  const PourDuration: nat := 1500
  /** Gap between the end of a pour animation and the step's advance. */
  const AdvanceGap: nat := 100

  datatype Precipitate = Precipitate(kind: string, color: string, opacity: real)

  datatype Flask = Flask(
    fillLevel: real,
    containerColor: string,
    labelText: string,
    precipitate: Option<Precipitate>,
    foilCovered: bool)

  /**
   * A step's precipitate entry: absent keeps the flask's precipitate, a
   * present entry (an explicit null included) replaces it.
   */
  datatype PrecipitatePatch = Unchanged | SetTo(value: Option<Precipitate>)

  /** A step's visualAfter: each absent (null or undefined) entry keeps the flask's value. */
  datatype VisualAfter = VisualAfter(
    fillLevel: Option<real>,
    containerColor: Option<string>,
    labelText: Option<string>,
    precipitate: PrecipitatePatch,
    foilCovered: Option<bool>)

  datatype AssemblyStep = AssemblyStep(action: string, visualAfter: Option<VisualAfter>)

  function InitialFlask(): Flask
  {
    Flask(0.0, EmptyFlaskColor, "", None, false)
  }

  /** The nullish fallback `x ?? d`. */
  function OrElse<T>(x: Option<T>, d: T): T
  {
    if x.Some? then x.value else d
  }

  /** applyVisualAfter: no patch leaves the flask as it is. */
  function ApplyVisualAfter(va: Option<VisualAfter>, f: Flask): Flask
  {
    match va
    case None => f
    case Some(v) =>
      Flask(
        OrElse(v.fillLevel, f.fillLevel),
        OrElse(v.containerColor, f.containerColor),
        OrElse(v.labelText, f.labelText),
        if v.precipitate.SetTo? then v.precipitate.value else f.precipitate,
        OrElse(v.foilCovered, f.foilCovered))
  }

  /** "cover" and "add_indicator" apply their patch after a timeout, without a ramp. */
  predicate IsInstant(action: string)
  {
    action == "cover" || action == "add_indicator"
  }

  function InstantDelay(action: string): nat
  {
    if action == "cover" then CoverDelay else IndicatorDelay
  }

  function RampDuration(action: string): nat
  {
    if action == "measure_and_transfer" then TransferDuration else PourDuration
  }

  /** The fill level a pour ramps to: the patch's level, else the current one. */
  function PourTarget(va: Option<VisualAfter>, f: Flask): real
  {
    if va.Some? && va.value.fillLevel.Some? then va.value.fillLevel.value else f.fillLevel
  }

  // ---------------------------------------------------------------- machine

  /** A running fill animation, with the patch its last frame applies. */
  datatype Ramp = Ramp(startFill: real, targetFill: real, patch: Option<VisualAfter>)

  /** What a timeout does; `from` is the step index its callback captured. */
  datatype Job =
    | ApplyAndAdvance(patch: Option<VisualAfter>, from: nat)
    | AdvanceOnly(from: nat)

  datatype Timer = Timer(id: nat, delay: nat, job: Job)

  datatype Machine = Machine(
    index: nat,
    isAnimating: bool,
    completed: bool,
    flask: Flask,
    ramp: Option<Ramp>,
    timers: seq<Timer>,
    animTimeout: Option<nat>,
    nextId: nat)

  datatype Event =
    | Click
    | Frame(r: real)
    | Fire(id: nat)
    | Unmount
    | UserResets

  /** The hook's initial state; the browser's timeout ids start at 1. */
  function Initial(): Machine
  {
    Machine(0, false, false, InitialFlask(), None, [], None, 1)
  }

  /** The pending timeouts other than the one with the given id. */
  function Without(ts: seq<Timer>, id: nat): (r: seq<Timer>)
    ensures forall t :: t in r <==> t in ts && t.id != id
    ensures |r| <= |ts|
  {
    if ts == [] then []
    else (if ts[0].id == id then [] else [ts[0]]) + Without(ts[1..], id)
  }

  /** The pending timeout with the given id, if any. */
  function FindTimer(ts: seq<Timer>, id: nat): (o: Option<Timer>)
    ensures o.Some? ==> o.value in ts && o.value.id == id
    ensures o.None? ==> forall t :: t in ts ==> t.id != id
  {
    if ts == [] then None
    else if ts[0].id == id then Some(ts[0])
    else FindTimer(ts[1..], id)
  }

  /** clearTimeout(animTimeout.current) when it is set. */
  function CancelHandle(m: Machine): Machine
  {
    match m.animTimeout
    case None => m
    case Some(h) => m.(timers := Without(m.timers, h))
  }

  /** setTimeout: the timeout gets the next id and animTimeout.current keeps it. */
  function Schedule(m: Machine, delay: nat, job: Job): Machine
  {
    m.(timers := m.timers + [Timer(m.nextId, delay, job)], animTimeout := Some(m.nextId), nextId := m.nextId + 1)
  }

  /** The advance that every step's timeout ends with, from the index it captured. */
  function Advance(m: Machine, from: nat, total: nat): Machine
  {
    if from + 1 >= total then m.(completed := true) else m.(index := from + 1)
  }

  /**
   * executeStep as the source writes it: a new timeout is scheduled and its
   * id overwrites animTimeout.current, while an earlier timeout that is still
   * pending is left running.
   */
  function AfterExecuteAsWritten(m: Machine, steps: seq<AssemblyStep>): Machine
  {
    if m.isAnimating || m.index >= |steps| then m
    else
      var step := steps[m.index];
      if IsInstant(step.action) then
        Schedule(m.(isAnimating := true), InstantDelay(step.action), ApplyAndAdvance(step.visualAfter, m.index))
      else
        var duration := RampDuration(step.action);
        var ramp := Ramp(m.flask.fillLevel, PourTarget(step.visualAfter, m.flask), step.visualAfter);
        Schedule(m.(isAnimating := true, ramp := Some(ramp)), duration + AdvanceGap, AdvanceOnly(m.index))
  }

  /**
   * executeStep with the earlier timeout cleared before the new one is
   * scheduled, so that animTimeout always names the only pending timeout.
   */
  function AfterExecute(m: Machine, steps: seq<AssemblyStep>): Machine
  {
    if m.isAnimating || m.index >= |steps| then m
    else AfterExecuteAsWritten(CancelHandle(m), steps)
  }

  /** One animation frame of the running ramp; the last one applies the patch and ends the animation. */
  function AfterFrame(m: Machine, r: real): Machine
  {
    match m.ramp
    case None => m
    case Some(Ramp(s, t, p)) =>
      var raw := Min(1.0, r);
      var m1 := m.(flask := m.flask.(fillLevel := s + (t - s) * EaseOutQuad(raw)));
      if raw < 1.0 then m1
      else m1.(flask := ApplyVisualAfter(p, m1.flask), isAnimating := false, ramp := None)
  }

  /** The timeout with this id runs, if the browser still holds it. */
  function AfterFire(m: Machine, id: nat, total: nat): Machine
  {
    match FindTimer(m.timers, id)
    case None => m
    case Some(t) =>
      var m1 := m.(timers := Without(m.timers, id));
      match t.job
      case ApplyAndAdvance(p, from) =>
        Advance(m1.(flask := ApplyVisualAfter(p, m1.flask), isAnimating := false), from, total)
      case AdvanceOnly(from) => Advance(m1, from, total)
  }

  /** cleanup cancels animTimeout's timeout and the running frame; the flags stay. */
  function AfterCleanup(m: Machine): Machine
  {
    CancelHandle(m).(ramp := None)
  }

  /** reset cancels animTimeout's timeout and the running frame, clears both refs and restores the initial state. */
  function AfterReset(m: Machine): Machine
  {
    var c := CancelHandle(m);
    Machine(0, false, false, InitialFlask(), None, c.timers, None, c.nextId)
  }

  function Step(m: Machine, e: Event, steps: seq<AssemblyStep>): Machine
  {
    match e
    case Click => AfterExecute(m, steps)
    case Frame(r) => AfterFrame(m, r)
    case Fire(id) => AfterFire(m, id, |steps|)
    case Unmount => AfterCleanup(m)
    case UserResets => AfterReset(m)
  }

  function Run(m: Machine, es: seq<Event>, steps: seq<AssemblyStep>): Machine
    decreases |es|
  {
    if es == [] then m else Run(Step(m, es[0], steps), es[1..], steps)
  }

  function StepAsWritten(m: Machine, e: Event, steps: seq<AssemblyStep>): Machine
  {
    if e == Click then AfterExecuteAsWritten(m, steps) else Step(m, e, steps)
  }

  function RunAsWritten(m: Machine, es: seq<Event>, steps: seq<AssemblyStep>): Machine
    decreases |es|
  {
    if es == [] then m else RunAsWritten(StepAsWritten(m, es[0], steps), es[1..], steps)
  }

  // ---------------------------------------------------------------- the patch

  /** Applying the same patch twice is applying it once. */
  lemma ApplyIdempotent(va: Option<VisualAfter>, f: Flask)
    ensures ApplyVisualAfter(va, ApplyVisualAfter(va, f)) == ApplyVisualAfter(va, f)
  {
  }

  /** A patch changes only the entries it carries; an explicit null precipitate clears it. */
  lemma ApplyKeepsAbsentEntries(v: VisualAfter, f: Flask)
    ensures v.fillLevel.None? ==> ApplyVisualAfter(Some(v), f).fillLevel == f.fillLevel
    ensures v.containerColor.None? ==> ApplyVisualAfter(Some(v), f).containerColor == f.containerColor
    ensures v.labelText.None? ==> ApplyVisualAfter(Some(v), f).labelText == f.labelText
    ensures v.precipitate.Unchanged? ==> ApplyVisualAfter(Some(v), f).precipitate == f.precipitate
    ensures v.precipitate == SetTo(None) ==> ApplyVisualAfter(Some(v), f).precipitate.None?
    ensures v.foilCovered.None? ==> ApplyVisualAfter(Some(v), f).foilCovered == f.foilCovered
  {
  }

  /** Ending a pour at its target level and then applying the patch is the patch alone. */
  lemma PourEndsAtPatch(va: Option<VisualAfter>, f: Flask)
    ensures ApplyVisualAfter(va, f.(fillLevel := PourTarget(va, f))) == ApplyVisualAfter(va, f)
  {
  }

  // ---------------------------------------------------------------- invariant

  /**
   * The index is a valid step (0 for an empty list); completion happens only
   * at the last step; a running ramp means an animation; at most one timeout
   * is pending, it captured the current index and animTimeout names it.
   */
  predicate Inv(m: Machine, total: nat)
  {
    (if total == 0 then m.index == 0 else m.index < total)
    && (m.completed ==> total > 0 && m.index == total - 1)
    && (m.ramp.Some? ==> m.isAnimating && RampAimsAtPatch(m.ramp.value))
    && |m.timers| <= 1
    && (|m.timers| == 1 ==> m.index < total && m.timers[0].job.from == m.index && m.animTimeout == Some(m.timers[0].id))
    && (|m.timers| == 1 && m.timers[0].job.ApplyAndAdvance? ==> m.ramp == None)
  }

  /** A ramp whose patch carries a fill level aims at that level. */
  predicate RampAimsAtPatch(rp: Ramp)
  {
    rp.patch.Some? && rp.patch.value.fillLevel.Some? ==> rp.targetFill == rp.patch.value.fillLevel.value
  }

  lemma InitialInv(total: nat)
    ensures Inv(Initial(), total)
  {
  }

  lemma ExecuteKeepsInv(m: Machine, steps: seq<AssemblyStep>)
    requires Inv(m, |steps|)
    ensures Inv(AfterExecute(m, steps), |steps|)
  {
    if !m.isAnimating && m.index < |steps| {
      var c := CancelHandle(m);
      assert c.timers == [] by {
        if |m.timers| == 1 {
          assert m.timers == [m.timers[0]];
          assert forall t :: t in c.timers ==> t in m.timers && t.id != m.timers[0].id;
        }
      }
    }
  }

  lemma FireKeepsInv(m: Machine, id: nat, total: nat)
    requires Inv(m, total)
    ensures Inv(AfterFire(m, id, total), total)
  {
    var o := FindTimer(m.timers, id);
    if o.Some? {
      assert m.timers == [m.timers[0]];
      assert Without(m.timers, id) == [];
    }
  }

  lemma StepKeepsInv(m: Machine, e: Event, steps: seq<AssemblyStep>)
    requires Inv(m, |steps|)
    ensures Inv(Step(m, e, steps), |steps|)
  {
    match e {
      case Click => ExecuteKeepsInv(m, steps);
      case Fire(id) => FireKeepsInv(m, id, |steps|);
      case Unmount =>
        if |m.timers| == 1 {
          assert m.timers == [m.timers[0]];
          assert Without(m.timers, m.timers[0].id) == [];
        }
      case UserResets =>
        if |m.timers| == 1 {
          assert m.timers == [m.timers[0]];
          assert Without(m.timers, m.timers[0].id) == [];
        }
      case Frame(r) =>
    }
  }

  lemma {:induction false} RunKeepsInv(m: Machine, es: seq<Event>, steps: seq<AssemblyStep>)
    requires Inv(m, |steps|)
    ensures Inv(Run(m, es, steps), |steps|)
    decreases |es|
  {
    if es != [] {
      StepKeepsInv(m, es[0], steps);
      RunKeepsInv(Step(m, es[0], steps), es[1..], steps);
    }
  }

  /** With no steps the assembly never completes, whatever happens. */
  lemma EmptyListNeverCompletes(es: seq<Event>)
    ensures !Run(Initial(), es, []).completed
  {
    InitialInv(0);
    RunKeepsInv(Initial(), es, []);
  }

  /** After completion the index stays on the last step. */
  lemma CompletedAtLastStep(es: seq<Event>, steps: seq<AssemblyStep>)
    ensures Run(Initial(), es, steps).completed ==> Run(Initial(), es, steps).index == |steps| - 1
  {
    InitialInv(|steps|);
    RunKeepsInv(Initial(), es, steps);
  }

  // ---------------------------------------------------------------- reset and progress

  /**
   * After reset nothing from before can land: no timeout and no frame is
   * pending, so every later frame or timeout leaves the initial state as it is.
   */
  lemma ResetSilencesPendingJobs(m: Machine, steps: seq<AssemblyStep>, r: real, id: nat)
    requires Inv(m, |steps|)
    ensures AfterReset(m).timers == [] && AfterReset(m).ramp == None
    ensures AfterReset(m) == Initial().(nextId := m.nextId)
    ensures Step(AfterReset(m), Frame(r), steps) == AfterReset(m)
    ensures Step(AfterReset(m), Fire(id), steps) == AfterReset(m)
  {
    if |m.timers| == 1 {
      assert m.timers == [m.timers[0]];
      assert Without(m.timers, m.timers[0].id) == [];
    }
  }

  /** Without a reset one event moves the index forward by at most one, and completion is never undone. */
  lemma StepNeverGoesBack(m: Machine, e: Event, steps: seq<AssemblyStep>)
    requires Inv(m, |steps|) && e != UserResets
    ensures m.index <= Step(m, e, steps).index <= m.index + 1
    ensures m.completed ==> Step(m, e, steps).completed
  {
    if e.Fire? {
      var o := FindTimer(m.timers, e.id);
      if o.Some? {
        assert m.timers == [m.timers[0]];
      }
    }
  }

  predicate NoReset(es: seq<Event>)
  {
    forall i :: 0 <= i < |es| ==> es[i] != UserResets
  }

  lemma {:induction false} RunNeverGoesBack(m: Machine, es: seq<Event>, steps: seq<AssemblyStep>)
    requires Inv(m, |steps|) && NoReset(es)
    ensures m.index <= Run(m, es, steps).index
    ensures m.completed ==> Run(m, es, steps).completed
    decreases |es|
  {
    if es != [] {
      StepNeverGoesBack(m, es[0], steps);
      StepKeepsInv(m, es[0], steps);
      assert NoReset(es[1..]) by {
        forall i | 0 <= i < |es[1..]| ensures es[1..][i] != UserResets {
          assert es[1..][i] == es[i + 1];
        }
      }
      RunNeverGoesBack(Step(m, es[0], steps), es[1..], steps);
    }
  }

  /** While an animation runs, a click is ignored. */
  lemma AnimatingBlocksExecute(m: Machine, steps: seq<AssemblyStep>)
    requires m.isAnimating
    ensures Step(m, Click, steps) == m
  {
  }

  /** During a ramp the fill level stays between the ramp's start and its target. */
  lemma RampStaysBetween(m: Machine, r: real, total: nat)
    requires Inv(m, total) && m.ramp.Some? && 0.0 <= r
    ensures Between(AfterFrame(m, r).flask.fillLevel, m.ramp.value.startFill, m.ramp.value.targetFill)
  {
    var raw := Min(1.0, r);
    var s := m.ramp.value.startFill;
    var t := m.ramp.value.targetFill;
    EaseOutQuadInUnit(raw);
    LerpBetween(s, t, EaseOutQuad(raw));
    if raw < 1.0 {
      assert AfterFrame(m, r).flask.fillLevel == s + (t - s) * EaseOutQuad(raw);
    } else {
      assert EaseOutQuad(raw) == 1.0;
      if m.ramp.value.patch.Some? && m.ramp.value.patch.value.fillLevel.Some? {
        assert AfterFrame(m, r).flask.fillLevel == m.ramp.value.patch.value.fillLevel.value;
      }
    }
  }

  // ---------------------------------------------------------------- walking the list

  /** Nothing is running and nothing is pending. */
  predicate Settled(m: Machine)
  {
    !m.isAnimating && m.ramp == None && m.timers == []
  }

  /** The events that carry one step to its end when its timeout gets the given id. */
  function StepEvents(s: AssemblyStep, id: nat): seq<Event>
  {
    if IsInstant(s.action) then [Click, Fire(id)] else [Click, Frame(1.0), Fire(id)]
  }

  /** The events that carry the steps from k on to their end, one after another. */
  function Walk(steps: seq<AssemblyStep>, k: nat, id: nat): seq<Event>
    decreases |steps| - k
  {
    if k >= |steps| then [] else StepEvents(steps[k], id) + Walk(steps, k + 1, id + 1)
  }

  /** The flask after the patches of the steps from k on. */
  function ApplyFrom(steps: seq<AssemblyStep>, k: nat, f: Flask): Flask
    decreases |steps| - k
  {
    if k >= |steps| then f else ApplyFrom(steps, k + 1, ApplyVisualAfter(steps[k].visualAfter, f))
  }

  lemma {:induction false} RunAppend(m: Machine, xs: seq<Event>, ys: seq<Event>, steps: seq<AssemblyStep>)
    ensures Run(m, xs + ys, steps) == Run(Run(m, xs, steps), ys, steps)
    decreases |xs|
  {
    if xs != [] {
      assert (xs + ys)[0] == xs[0] && (xs + ys)[1..] == xs[1..] + ys;
      RunAppend(Step(m, xs[0], steps), xs[1..], ys, steps);
    } else {
      assert xs + ys == ys;
    }
  }

  /**
   * A settled machine carries its current step to the end: the flask gets
   * the step's patch, nothing is left pending, and the index advances, or on
   * the last step the assembly completes.
   */
  /**
   * m' is m with its current step carried to the end: nothing is left
   * pending, the flask got the step's patch, and the index advanced, or on
   * the last step the assembly completed.
   */
  predicate StepDone(m: Machine, m': Machine, steps: seq<AssemblyStep>)
  {
    var k := m.index;
    k < |steps| && Settled(m') && m'.nextId == m.nextId + 1
    && m'.flask == ApplyVisualAfter(steps[k].visualAfter, m.flask)
    && (k + 1 < |steps| ==> m'.index == k + 1 && m'.completed == m.completed)
    && (k + 1 >= |steps| ==> m'.index == k && m'.completed)
  }

  lemma RunTwo(m: Machine, a: Event, b: Event, steps: seq<AssemblyStep>)
    ensures Run(m, [a, b], steps) == Step(Step(m, a, steps), b, steps)
  {
    var m2 := Step(Step(m, a, steps), b, steps);
    assert Run(m2, [], steps) == m2;
    assert [b][1..] == [];
    assert [a, b][1..] == [b];
  }

  lemma RunThree(m: Machine, a: Event, b: Event, c: Event, steps: seq<AssemblyStep>)
    ensures Run(m, [a, b, c], steps) == Step(Step(Step(m, a, steps), b, steps), c, steps)
  {
    RunTwo(Step(m, a, steps), b, c, steps);
    assert [a, b, c][1..] == [b, c];
  }

  /** A cover or indicator step: the click schedules the timeout, and its firing applies the patch and advances. */
  lemma InstantStepCompletes(m: Machine, steps: seq<AssemblyStep>)
    requires Inv(m, |steps|) && Settled(m) && m.index < |steps| && IsInstant(steps[m.index].action)
    ensures StepDone(m, Step(Step(m, Click, steps), Fire(m.nextId), steps), steps)
  {
    var k := m.index;
    var id := m.nextId;
    var m1 := Step(m, Click, steps);
    assert m1.timers == [Timer(id, InstantDelay(steps[k].action), ApplyAndAdvance(steps[k].visualAfter, k))];
    assert FindTimer(m1.timers, id) == Some(m1.timers[0]);
    assert Without(m1.timers, id) == [];
  }

  /** A click on a settled pour step starts the ramp towards the patch's level and schedules the advance. */
  lemma ClickStartsPour(m: Machine, steps: seq<AssemblyStep>)
    requires Settled(m) && m.index < |steps| && !IsInstant(steps[m.index].action)
    ensures var s := steps[m.index];
      Step(m, Click, steps) == m.(isAnimating := true,
        ramp := Some(Ramp(m.flask.fillLevel, PourTarget(s.visualAfter, m.flask), s.visualAfter)),
        timers := [Timer(m.nextId, RampDuration(s.action) + AdvanceGap, AdvanceOnly(m.index))],
        animTimeout := Some(m.nextId), nextId := m.nextId + 1)
  {
    assert CancelHandle(m) == m;
  }

  /** The last frame of a ramp ends at its target and applies its patch. */
  lemma LastFrame(m: Machine, rp: Ramp)
    requires m.ramp == Some(rp)
    ensures AfterFrame(m, 1.0) == m.(flask := ApplyVisualAfter(rp.patch, m.flask.(fillLevel := rp.targetFill)), isAnimating := false, ramp := None)
  {
    assert EaseOutQuad(1.0) == 1.0;
    assert rp.startFill + (rp.targetFill - rp.startFill) * 1.0 == rp.targetFill;
  }

  /** The only pending timeout fires and runs its job. */
  lemma FireOnly(m: Machine, t: Timer, total: nat)
    requires m.timers == [t]
    ensures AfterFire(m, t.id, total) ==
      match t.job
      case ApplyAndAdvance(p, from) => Advance(m.(timers := [], flask := ApplyVisualAfter(p, m.flask), isAnimating := false), from, total)
      case AdvanceOnly(from) => Advance(m.(timers := []), from, total)
  {
    assert FindTimer(m.timers, t.id) == Some(t);
    assert Without(m.timers, t.id) == [];
  }

  /** A pour step: the click starts the ramp, its last frame applies the patch, and the advance timeout moves on. */
  lemma PourStepCompletes(m: Machine, steps: seq<AssemblyStep>)
    requires Inv(m, |steps|) && Settled(m) && m.index < |steps| && !IsInstant(steps[m.index].action)
    ensures StepDone(m, Step(Step(Step(m, Click, steps), Frame(1.0), steps), Fire(m.nextId), steps), steps)
  {
    var k := m.index;
    var s := steps[k];
    var id := m.nextId;
    var rp := Ramp(m.flask.fillLevel, PourTarget(s.visualAfter, m.flask), s.visualAfter);
    var t := Timer(id, RampDuration(s.action) + AdvanceGap, AdvanceOnly(k));
    ClickStartsPour(m, steps);
    var m1 := Step(m, Click, steps);
    LastFrame(m1, rp);
    var m2 := Step(m1, Frame(1.0), steps);
    PourEndsAtPatch(s.visualAfter, m.flask);
    assert m2.flask == ApplyVisualAfter(s.visualAfter, m.flask);
    FireOnly(m2, t, |steps|);
  }

  lemma OneStepCompletes(m: Machine, steps: seq<AssemblyStep>)
    requires Inv(m, |steps|) && Settled(m) && m.index < |steps|
    ensures var m' := Run(m, StepEvents(steps[m.index], m.nextId), steps);
      Inv(m', |steps|) && StepDone(m, m', steps)
  {
    var s := steps[m.index];
    var id := m.nextId;
    if IsInstant(s.action) {
      RunTwo(m, Click, Fire(id), steps);
      InstantStepCompletes(m, steps);
    } else {
      RunThree(m, Click, Frame(1.0), Fire(id), steps);
      PourStepCompletes(m, steps);
    }
    RunKeepsInv(m, StepEvents(s, id), steps);
  }

  lemma {:induction false} WalkFrom(m: Machine, steps: seq<AssemblyStep>)
    requires Inv(m, |steps|) && Settled(m) && m.index < |steps|
    ensures var m' := Run(m, Walk(steps, m.index, m.nextId), steps);
      m'.completed && m'.index == |steps| - 1 && Settled(m')
      && m'.flask == ApplyFrom(steps, m.index, m.flask)
    decreases |steps| - m.index
  {
    var k := m.index;
    var es := StepEvents(steps[k], m.nextId);
    var rest := Walk(steps, k + 1, m.nextId + 1);
    assert Walk(steps, k, m.nextId) == es + rest;
    OneStepCompletes(m, steps);
    var m1 := Run(m, es, steps);
    RunAppend(m, es, rest, steps);
    assert ApplyFrom(steps, k, m.flask) == ApplyFrom(steps, k + 1, m1.flask);
    if k + 1 < |steps| {
      assert m1.index == k + 1 && m1.nextId == m.nextId + 1;
      WalkFrom(m1, steps);
    } else {
      assert rest == [];
      assert Run(m1, rest, steps) == m1;
    }
  }

  /**
   * Executing every step in turn and letting each finish completes the
   * assembly on the last step, with the flask showing every step's patch
   * in order over the empty flask.
   */
  lemma AssemblyWalkThrough(steps: seq<AssemblyStep>)
    requires |steps| > 0
    ensures var m := Run(Initial(), Walk(steps, 0, 1), steps);
      m.completed && m.index == |steps| - 1 && !m.isAnimating
      && m.flask == ApplyFrom(steps, 0, InitialFlask())
  {
    InitialInv(|steps|);
    WalkFrom(Initial(), steps);
  }

  // ---------------------------------------------------------------- as written

  const PourOnly: seq<AssemblyStep> := [AssemblyStep("transfer", None)]

  /** The events of the race: a pour, its last frame, a second click in the gap, a reset, and the first timeout firing. */
  const RaceEvents: seq<Event> := [Click, Frame(1.0), Click, UserResets, Fire(1)]

  /**
   * As written, a second click in the gap between a pour's last frame and
   * its advance schedules a second advance and animTimeout forgets the
   * first; reset cancels only the second, so the first still lands and
   * marks a freshly reset assembly completed.
   */
  lemma StaleAdvanceAfterReset()
    ensures RunAsWritten(Initial(), RaceEvents, PourOnly).completed
    ensures RunAsWritten(Initial(), RaceEvents, PourOnly).index == 0
  {
    var m0 := Initial();
    var a1 := StepAsWritten(m0, Click, PourOnly);
    assert a1.ramp == Some(Ramp(0.0, 0.0, None));
    LastFrame(a1, a1.ramp.value);
    var a2 := StepAsWritten(a1, Frame(1.0), PourOnly);
    var a3 := StepAsWritten(a2, Click, PourOnly);
    assert a3.timers == [Timer(1, 1600, AdvanceOnly(0))] + [Timer(2, 1600, AdvanceOnly(0))];
    var a4 := StepAsWritten(a3, UserResets, PourOnly);
    assert Without([Timer(2, 1600, AdvanceOnly(0))], 2) == [];
    assert a4.timers == [Timer(1, 1600, AdvanceOnly(0))];
    FireOnly(a4, Timer(1, 1600, AdvanceOnly(0)), 1);
    var a5 := StepAsWritten(a4, Fire(1), PourOnly);
    assert RunAsWritten(a4, [Fire(1)], PourOnly) == a5 by { assert [Fire(1)][1..] == []; }
    assert RunAsWritten(a3, [UserResets, Fire(1)], PourOnly) == a5 by { assert [UserResets, Fire(1)][1..] == [Fire(1)]; }
    assert RunAsWritten(a2, [Click, UserResets, Fire(1)], PourOnly) == a5 by { assert [Click, UserResets, Fire(1)][1..] == [UserResets, Fire(1)]; }
    assert RunAsWritten(a1, RaceEvents[1..], PourOnly) == a5 by { assert RaceEvents[1..][1..] == [Click, UserResets, Fire(1)]; }
  }

  /** With the earlier timeout cleared on each click, the same events leave the reset state untouched. */
  lemma ClearedAdvanceAfterReset()
    ensures Run(Initial(), RaceEvents, PourOnly) == Initial().(nextId := 3)
  {
    var m0 := Initial();
    var c1 := Step(m0, Click, PourOnly);
    assert c1.ramp == Some(Ramp(0.0, 0.0, None));
    LastFrame(c1, c1.ramp.value);
    var c2 := Step(c1, Frame(1.0), PourOnly);
    assert c2.timers == [Timer(1, 1600, AdvanceOnly(0))];
    assert Without(c2.timers, 1) == [];
    var c3 := Step(c2, Click, PourOnly);
    assert c3.timers == [Timer(2, 1600, AdvanceOnly(0))];
    var c4 := Step(c3, UserResets, PourOnly);
    assert c4.timers == [];
    var c5 := Step(c4, Fire(1), PourOnly);
    assert c5 == c4;
    assert Run(c4, [Fire(1)], PourOnly) == c4 by { assert [Fire(1)][1..] == []; }
    assert Run(c3, [UserResets, Fire(1)], PourOnly) == c4 by { assert [UserResets, Fire(1)][1..] == [Fire(1)]; }
    assert Run(c2, [Click, UserResets, Fire(1)], PourOnly) == c4 by { assert [Click, UserResets, Fire(1)][1..] == [UserResets, Fire(1)]; }
    assert Run(c1, RaceEvents[1..], PourOnly) == c4 by { assert RaceEvents[1..][1..] == [Click, UserResets, Fire(1)]; }
  }

  // ---------------------------------------------------------------- the hook

  /**
   * The hook's state: its three state variables and the flask, the frame
   * rafRef points to, the id animTimeout holds, and the timeouts the
   * browser holds for it with the next id it will hand out.
   */
  class SequentialAssemblyHook {
    const assemblySteps: seq<AssemblyStep>
    var currentStepIndex: nat
    var isAnimating: bool
    var completed: bool
    var flaskState: Flask
    var rafRef: Option<Ramp>
    var pendingTimers: seq<Timer>
    var animTimeout: Option<nat>
    var nextTimerId: nat

    function State(): Machine
      reads this
    {
      Machine(currentStepIndex, isAnimating, completed, flaskState, rafRef, pendingTimers, animTimeout, nextTimerId)
    }

    predicate Valid()
      reads this
    {
      Inv(State(), |assemblySteps|)
    }

    /**
     * totalSteps: the index executeStep reads is below it whenever the list is
     * non-empty, and an empty list keeps the index at 0.
     */
    function TotalSteps(): (n: nat)
      reads this
      requires Valid()
      ensures currentStepIndex < n || (n == 0 && currentStepIndex == 0)
    {
      |assemblySteps|
    }

    /** The current step, or none once the index is past the list. */
    function CurrentStep(): (s: Option<AssemblyStep>)
      reads this
      requires Valid()
      ensures s.Some? <==> |assemblySteps| > 0
      ensures s.Some? ==> s.value == assemblySteps[currentStepIndex]
    {
      if currentStepIndex < |assemblySteps| then Some(assemblySteps[currentStepIndex]) else None
    }

    constructor (steps: seq<AssemblyStep>)
      ensures Valid() && assemblySteps == steps && State() == Initial()
    {
      assemblySteps := steps;
      currentStepIndex := 0;
      isAnimating := false;
      completed := false;
      flaskState := InitialFlask();
      rafRef := None;
      pendingTimers := [];
      animTimeout := None;
      nextTimerId := 1;
    }

    /** clearTimeout(animTimeout.current) when it is set. */
    method ClearAnimTimeout()
      modifies this
      ensures State() == CancelHandle(old(State()))
    {
      if animTimeout.Some? {
        pendingTimers := Without(pendingTimers, animTimeout.value);
      }
    }

    method SetAnimTimeout(delay: nat, job: Job)
      modifies this
      ensures State() == Schedule(old(State()), delay, job)
    {
      pendingTimers := pendingTimers + [Timer(nextTimerId, delay, job)];
      animTimeout := Some(nextTimerId);
      nextTimerId := nextTimerId + 1;
    }

    method ExecuteStep()
      requires Valid()
      modifies this
      ensures Valid() && State() == AfterExecute(old(State()), assemblySteps)
    {
      ExecuteKeepsInv(State(), assemblySteps);
      if isAnimating || currentStepIndex >= |assemblySteps| {
        return;
      }
      ghost var m0 := State();
      ClearAnimTimeout();
      ghost var c := State();
      assert AfterExecute(m0, assemblySteps) == AfterExecuteAsWritten(c, assemblySteps);
      var step := assemblySteps[currentStepIndex];
      if step.action == "cover" {
        assert IsInstant(step.action) && InstantDelay(step.action) == CoverDelay;
        StartAnimation(None, CoverDelay, ApplyAndAdvance(step.visualAfter, currentStepIndex));
        return;
      }
      if step.action == "add_indicator" {
        assert IsInstant(step.action) && InstantDelay(step.action) == IndicatorDelay;
        StartAnimation(None, IndicatorDelay, ApplyAndAdvance(step.visualAfter, currentStepIndex));
        return;
      }
      assert !IsInstant(step.action);
      var targetFill := PourTarget(step.visualAfter, flaskState);
      var duration := if step.action == "measure_and_transfer" then TransferDuration else PourDuration;
      assert duration == RampDuration(step.action);
      StartAnimation(Some(Ramp(flaskState.fillLevel, targetFill, step.visualAfter)), duration + AdvanceGap, AdvanceOnly(currentStepIndex));
    }

    /** setIsAnimating(true), the ramp's first frame when there is one, and the step's timeout. */
    method StartAnimation(ramp: Option<Ramp>, delay: nat, job: Job)
      modifies this
      ensures State() == Schedule(old(State()).(isAnimating := true, ramp := if ramp.Some? then ramp else old(rafRef)), delay, job)
    {
      isAnimating := true;
      if ramp.Some? {
        rafRef := ramp;
      }
      SetAnimTimeout(delay, job);
    }

    /** The animation frame callback; r is elapsed / duration. */
    method AnimationFrame(r: real)
      requires Valid()
      modifies this
      ensures Valid() && State() == AfterFrame(old(State()), r)
    {
      StepKeepsInv(State(), Frame(r), assemblySteps);
      if rafRef.None? {
        return;
      }
      var ramp := rafRef.value;
      ghost var m0 := State();
      assert m0.ramp == Some(Ramp(ramp.startFill, ramp.targetFill, ramp.patch));
      var rawProgress := Min(1.0, r);
      var progress := EaseOutQuad(rawProgress);
      flaskState := flaskState.(fillLevel := ramp.startFill + (ramp.targetFill - ramp.startFill) * progress);
      if rawProgress >= 1.0 {
        flaskState := ApplyVisualAfter(ramp.patch, flaskState);
        isAnimating := false;
        rafRef := None;
      }
    }

    /** A timeout callback, when the browser still holds the timeout with this id. */
    method TimeoutFired(id: nat)
      requires Valid()
      modifies this
      ensures Valid() && State() == AfterFire(old(State()), id, |assemblySteps|)
    {
      StepKeepsInv(State(), Fire(id), assemblySteps);
      var t := FindTimer(pendingTimers, id);
      if t.None? {
        return;
      }
      pendingTimers := Without(pendingTimers, id);
      if t.value.job.ApplyAndAdvance? {
        flaskState := ApplyVisualAfter(t.value.job.patch, flaskState);
        isAnimating := false;
      }
      var nextIndex := t.value.job.from + 1;
      if nextIndex >= |assemblySteps| {
        completed := true;
      } else {
        currentStepIndex := nextIndex;
      }
    }

    method Cleanup()
      requires Valid()
      modifies this
      ensures Valid() && State() == AfterCleanup(old(State()))
    {
      StepKeepsInv(State(), Unmount, assemblySteps);
      ClearAnimTimeout();
      rafRef := None;
    }

    method Reset()
      requires Valid()
      modifies this
      ensures Valid() && State() == AfterReset(old(State()))
      ensures pendingTimers == [] && rafRef == None
    {
      ResetSilencesPendingJobs(State(), assemblySteps, 0.0, 0);
      StepKeepsInv(State(), UserResets, assemblySteps);
      ClearAnimTimeout();
      rafRef := None;
      animTimeout := None;
      currentStepIndex := 0;
      isAnimating := false;
      completed := false;
      flaskState := InitialFlask();
    }
  }
}
