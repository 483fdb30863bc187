# Lab simulator: a verified model of the simulation logic

This project models the simulation logic of a web-based chemistry-lab simulator, in which a
student selects material, measures a sample, assembles the apparatus, titrates and gets a
report. The model covers both sides of the program:

- **the browser side**, which holds most of the logic:
  - the HSL colour engine that colours the flask as titrant is added;
  - the titration tracker store;
  - the two assembly hooks, which are step machines driven by animation frames and timeouts;
  - the session store;
  - the state logic of the material, measurement, assembly and titration stages;
  - the browser copy of the chemistry formulas;
- **the server side**, which holds:
  - the practice registry;
  - the expected-volume and validation calculator;
  - the RGB colour lookup;
  - the report generator.

Each source file becomes one Dafny module, and the module keeps the form of the source file:

- **Pure code** (the colour engine, the calculators, the warning and grid helpers) becomes
  datatypes, functions and lemmas.
- **Stores, hooks and components that change state** become classes whose methods update fields
  in place:
  - `TitrationStore.TitrationTracker`, `SimulatorStore.Store`, `Assembly.AssemblyHook`,
    `SequentialAssembly.SequentialAssemblyHook`;
  - `Registry.PracticeRegistry`;
  - `MeasurementStage.MeasurementView`, `MaterialSetup.MaterialBench` and
    `AssemblyStage.AssemblyStageView`.
- **The two hooks** also get a state datatype (`Machine`) and a transition function per callback:
  - each method is proved to move `State()` exactly as its transition function says;
  - the properties of whole event sequences are lemmas over those functions.
- **The report generator's criterion loop and tier loop** are methods. They are proved to
  return the value of a reference function (`ReportOf`, `TierOutcome`).

Modelling conventions:

- Numbers are `real`. JavaScript's `Math.round`, Python's `round` (half to even), truncation by
  `int()`, JavaScript's `%` and the `x || d` fallbacks are written out explicitly (module
  `Numbers`, `Config.JsOr`).
- `requestAnimationFrame` and `setTimeout` become explicit events:
  - a frame carries the elapsed fraction `r` of the animation;
  - a timeout firing carries its id.
- The sequential hook keeps the list of timeouts the browser still holds, so a timeout that
  `animTimeout` no longer names can still fire.

Shared modules:

- `Base` holds `Option` and `Result`.
- `Numbers` holds the rounding functions.
- `Hex` holds the hex-digit helpers used by both colour parsers.
- `Breakpoints` holds the breakpoint record and the first-bracket search that the browser and
  the server lookups share.
- `Config` holds the practice configuration records.
- `Easing` holds `easeOutQuad`.

Behaviour of the code that the model keeps as written:

- `getColorAtProgress` and `initTitration` have no error path.
  - An empty breakpoint list gives `#F0F0F0`.
  - A missing or zero setting falls back to its default, and nothing raises.
- `executeStep` of the sequential hook does not check `completed`.
  - After the last step it runs that step again.
  - `EmptyListNeverCompletes` and `CompletedAtLastStep` state what does hold.
- `startFilling` of the measurement stage does not clear an interval that is already running.
  - A second press before the release (a second pointer) starts a second interval, and the ref
    keeps only the newer one.
  - The release clears only that one, so the older interval keeps adding 2 mL per tick up to the
    maximum, even after the volume is confirmed (`MeasurementStage.SecondPressLeaksInterval`).

## Model

| member | source | states |
|---|---|---|
| Easing.EaseOutQuadEnds | lab-simulator/frontend/src/hooks/useAssembly.js:14-16 | easeOutQuad maps 0 to 0 and 1 to 1 |
| Easing.EaseOutQuadInUnit | lab-simulator/frontend/src/hooks/useAssembly.js:14-16 | on [0, 1] the eased value stays in [0, 1] and is never below its argument |
| Easing.EaseOutQuadMonotone | lab-simulator/frontend/src/hooks/useAssembly.js:14-16 | on [0, 1] easeOutQuad is monotone, so a later frame never shows less progress |
| Numbers.JsRound | lab-simulator/frontend/src/store/useTitrationStore.js:63 | Math.round gives an integer within half of its argument, a tie going up |
| Numbers.RoundHalfEven | lab-simulator/backend/services/report_generator.py:97 | Python's round gives an integer within half of its argument, and a tie goes to the even integer |
| Numbers.Trunc | lab-simulator/backend/services/titration_engine.py:51-53 | int() truncates toward zero: the magnitude drops by less than 1 and the sign is kept |
| Numbers.Round2IsHundredths | lab-simulator/frontend/src/store/useTitrationStore.js:63 | Math.round(x * 100) / 100 is a whole number of hundredths |
| Numbers.Round1IsTenths | lab-simulator/frontend/src/components/stages/S3_Measurement.jsx:58 | Math.round(x * 10) / 10 is a whole number of tenths |
| Numbers.Round3IsThousandths | lab-simulator/frontend/src/utils/colorInterpolation.js:137 | Math.round(p * 1000) / 1000 is a whole number of thousandths |
| Numbers.Round2Below | lab-simulator/frontend/src/store/useTitrationStore.js:53-63 | rounding to hundredths does not carry a value above a bound that is itself whole hundredths |
| Numbers.Round2Above | lab-simulator/frontend/src/store/useTitrationStore.js:53-63 | rounding to hundredths does not carry a value below a bound that is whole hundredths |
| Numbers.Round2Fixed | lab-simulator/frontend/src/store/useTitrationStore.js:63 | a whole number of hundredths is unchanged by the rounding |
| Numbers.Round1Below | lab-simulator/frontend/src/components/stages/S3_Measurement.jsx:58-59 | rounding to tenths does not carry a value above a bound in whole tenths |
| Numbers.Round1Above | lab-simulator/frontend/src/components/stages/S3_Measurement.jsx:58-59 | rounding to tenths does not carry a value below a bound in whole tenths |
| Numbers.LerpBetween | lab-simulator/frontend/src/hooks/useAssembly.js:93 | a + (b - a) * t with t in [0, 1] stays between a and b |
| Config.JsOr | lab-simulator/frontend/src/store/useTitrationStore.js:38-46 | `x \|\| d` on a number: the result is the value or the default, and never 0 when the default is non-zero (so every divisor that falls back this way is non-zero) |
| Hex.DigitValue | lab-simulator/frontend/src/utils/colorInterpolation.js:9-11 | a hex digit of either case is worth less than 16 |
| Hex.LowerDigit | lab-simulator/frontend/src/utils/colorInterpolation.js:20 | toString(16) writes a lower-case digit whose value is the one given |
| Hex.ToHexString | lab-simulator/frontend/src/utils/colorInterpolation.js:20 | toString(16) gives lower-case hex digits, one digit exactly below 16 |
| Hex.Hex2 | lab-simulator/frontend/src/utils/colorInterpolation.js:20-21 | a byte printed with its leading zero is two digits: the high and the low nibble |
| Hex.HexValueOfPair | lab-simulator/frontend/src/utils/colorInterpolation.js:9-11 | parseInt of two hex digits is 16 times the first plus the second, below 256 |
| Hex.PyParseHex | lab-simulator/backend/services/titration_engine.py:61 | int(s, 16) of a non-empty slice of hex digits is the digits' value |
| Hex.PyParseHexEmpty | lab-simulator/backend/services/titration_engine.py:61 | int("", 16) raises |
| Hex.PyFormat02x | lab-simulator/backend/services/titration_engine.py:54 | `{n:02x}` of a byte is the two lower-case digits rgbToHex also writes |
| Breakpoints.FirstBracket | lab-simulator/frontend/src/utils/colorInterpolation.js:115-123 | the search returns the first pair with curr < p <= next, and falls through only when p is above the last progress, for any list order |
| Breakpoints.BracketFraction | lab-simulator/frontend/src/utils/colorInterpolation.js:119 | the blend parameter of the pair found lies in (0, 1], so the division is never by zero |
| ColorInterpolation.PairValue | lab-simulator/frontend/src/utils/colorInterpolation.js:9-11 | each parsed pair is a channel below 256 |
| ColorInterpolation.HexToRgb | lab-simulator/frontend/src/utils/colorInterpolation.js:6-13 | an optional '#' plus six hex digits of either case give the three pairs' values; any other string gives black; every channel is in 0..255 |
| ColorInterpolation.ChannelHex | lab-simulator/frontend/src/utils/colorInterpolation.js:19-21 | a channel is clamped into [0, 255], rounded and printed as two lower-case hex digits |
| ColorInterpolation.Clamp255 | lab-simulator/frontend/src/utils/colorInterpolation.js:20 | the clamp lands in [0, 255] and leaves an in-range value alone |
| ColorInterpolation.RgbToHex | lab-simulator/frontend/src/utils/colorInterpolation.js:18-23 | any three numbers print as '#' plus six lower-case hex digits |
| ColorInterpolation.ChannelRoundTrip | lab-simulator/frontend/src/utils/colorInterpolation.js:9-21 | a channel 0..255 printed by rgbToHex parses back to itself |
| ColorInterpolation.HexRoundTrip | lab-simulator/frontend/src/utils/colorInterpolation.js:6-23 | hexToRgb(rgbToHex(r, g, b)) == (r, g, b) for every in-gamut integer colour |
| ColorInterpolation.PrintedHexIsAccepted | lab-simulator/frontend/src/utils/colorInterpolation.js:7-23 | whatever rgbToHex prints matches hexToRgb's pattern |
| ColorInterpolation.LowerCase | lab-simulator/frontend/src/utils/colorInterpolation.js:7 | what the i flag relies on: the length is kept, hex digits become lower-case hex digits of the same value, other characters stay non-digits and `#` stays `#` |
| ColorInterpolation.HexToRgbIgnoresCase | lab-simulator/frontend/src/utils/colorInterpolation.js:7 | the i flag: a colour string and its lower-case form parse alike |
| ColorInterpolation.HueFractionInUnit | lab-simulator/frontend/src/utils/colorInterpolation.js:38-42 | the hue of a non-grey colour, as a fraction of a turn, lies in [0, 1) |
| ColorInterpolation.RedSectorInUnit | lab-simulator/frontend/src/utils/colorInterpolation.js:39 | when red is largest, adding 6 to a negative quotient keeps the hue in [0, 1) |
| ColorInterpolation.SaturationInUnit | lab-simulator/frontend/src/utils/colorInterpolation.js:36-37 | the saturation of a non-grey colour lies in (0, 1] |
| ColorInterpolation.RgbToHslInRange | lab-simulator/frontend/src/utils/colorInterpolation.js:28-45 | rgbToHsl of a parsed colour gives h in [0, 360) and s, l in [0, 100] |
| ColorInterpolation.GreyHasNoHue | lab-simulator/frontend/src/utils/colorInterpolation.js:33-34 | a grey (max == min) has h = s = 0 |
| ColorInterpolation.WrapUnit | lab-simulator/frontend/src/utils/colorInterpolation.js:58-59 | hue2rgb's single fold of t brings any t in [-1, 2] into [0, 1] |
| ColorInterpolation.HslToRgbGrey | lab-simulator/frontend/src/utils/colorInterpolation.js:54-55 | hslToRgb with s = 0 returns r = g = b |
| ColorInterpolation.Hue2RgbRising | lab-simulator/frontend/src/utils/colorInterpolation.js:60 | on the rising sector hue2rgb stays between p and q |
| ColorInterpolation.Hue2RgbFalling | lab-simulator/frontend/src/utils/colorInterpolation.js:62 | on the falling sector hue2rgb stays between p and q |
| ColorInterpolation.Hue2RgbBetween | lab-simulator/frontend/src/utils/colorInterpolation.js:57-64 | hue2rgb of any t within one turn of [0, 1] lies between p and q |
| ColorInterpolation.HslQBounds | lab-simulator/frontend/src/utils/colorInterpolation.js:65-66 | for fractions in [0, 1], l <= q <= min(1, 2l), so 0 <= p <= q <= 1 |
| ColorInterpolation.RoundedUnitInByte | lab-simulator/frontend/src/utils/colorInterpolation.js:72-74 | Math.round(x * 255) of x in [0, 1] is in 0..255 |
| ColorInterpolation.HslToRgbInGamut | lab-simulator/frontend/src/utils/colorInterpolation.js:50-76 | in-range HSL converts to RGB in 0..255, so rgbToHex's clamp never acts on it |
| ColorInterpolation.ShortestHueDeltaIsShorterArc | lab-simulator/frontend/src/utils/colorInterpolation.js:92-94 | for hues in [0, 360) the step lies in [-180, 180] and equals h2 - h1 up to whole turns |
| ColorInterpolation.JsRemTurn | lab-simulator/frontend/src/utils/colorInterpolation.js:100 | JavaScript's h % 360 is h minus 360 times the truncated quotient, strictly within one turn of 0 |
| ColorInterpolation.JsRemPositiveTurn | lab-simulator/frontend/src/utils/colorInterpolation.js:100 | for x in (0, 720), x % 360 lies in [0, 360) |
| ColorInterpolation.NormalizeHueInRange | lab-simulator/frontend/src/utils/colorInterpolation.js:100 | ((h % 360) + 360) % 360 lies in [0, 360) and differs from h by whole turns |
| ColorInterpolation.InterpolateColorHSL | lab-simulator/frontend/src/utils/colorInterpolation.js:85-102 | the blended colour is always '#' plus six lower-case hex digits |
| ColorInterpolation.BlendHslBetween | lab-simulator/frontend/src/utils/colorInterpolation.js:96-98 | for t in [0, 1] the blended s and l lie between the two colours' own |
| ColorInterpolation.BlendHslInRange | lab-simulator/frontend/src/utils/colorInterpolation.js:92-100 | the blend of two in-range colours, hue normalised, is in range |
| ColorInterpolation.BlendHslAtZero | lab-simulator/frontend/src/utils/colorInterpolation.js:92-100 | at t = 0 the blend is the first colour's HSL |
| ColorInterpolation.InterpolationStaysInGamut | lab-simulator/frontend/src/utils/colorInterpolation.js:85-101 | whatever the two strings, the RGB handed to rgbToHex is in 0..255 |
| ColorInterpolation.GetColorAtProgressEnds | lab-simulator/frontend/src/utils/colorInterpolation.js:110-113 | an empty list gives '#F0F0F0'; at or below the first breakpoint, and at or above the last, that endpoint's colour string comes back unchanged |
| ColorInterpolation.GetColorAtProgressInterior | lab-simulator/frontend/src/utils/colorInterpolation.js:115-123 | strictly inside the range the loop finds the first bracketing pair, with t in (0, 1], and the fallback return is unreachable |
| ColorInterpolation.SortedBracketIsLastBelow | lab-simulator/frontend/src/utils/colorInterpolation.js:106-121 | for a list sorted by progress, every breakpoint after the pair found is at or above p |
| ColorInterpolation.StretchTransitionsNearEndpoint | lab-simulator/frontend/src/utils/colorInterpolation.js:130-139 | the stretch keeps the length and every colour |
| ColorInterpolation.StretchWindowEnds | lab-simulator/frontend/src/utils/colorInterpolation.js:133-137 | 0.85 maps to 0.70 and 1.0 maps to 1.15 |
| ColorInterpolation.StretchProgressRange | lab-simulator/frontend/src/utils/colorInterpolation.js:132-137 | every new progress has three decimals, and window points land in [0.70, 1.15] |
| ColorInterpolation.StretchKeepsOutside | lab-simulator/frontend/src/utils/colorInterpolation.js:133-137 | a point outside the window that already has three decimals stays where it is |
| ColorInterpolation.StretchDoesNotKeepOrder | lab-simulator/frontend/src/utils/colorInterpolation.js:130-139 | the stretch can reverse two breakpoints: 0.75 stays while 0.85 becomes 0.70 |
| ColorInterpolation.ShiftsStayInRange | lab-simulator/frontend/src/utils/colorInterpolation.js:149-165 | lighten and darken keep the hue and keep s and l in [0, 100]; lightening never lowers l, darkening never raises it, and neither raises s |
| ColorInterpolation.LightenTransitions | lab-simulator/frontend/src/utils/colorInterpolation.js:145-154 | lightening keeps length and progress, and each new colour is `LightenColor` of the old one, '#' plus six lower-case hex digits |
| ColorInterpolation.DarkenTransitions | lab-simulator/frontend/src/utils/colorInterpolation.js:160-169 | darkening keeps length and progress, and each new colour is `DarkenColor` of the old one, '#' plus six lower-case hex digits |
| ColorInterpolation.ModifiersStayInRange | lab-simulator/frontend/src/utils/colorInterpolation.js:147-166 | for any colour string, both modifiers hand in-range HSL to hslToRgb and get in-gamut RGB back |
| ColorInterpolation.RgbToHsl | lab-simulator/frontend/src/utils/colorInterpolation.js:28-45 | rgbToHsl on channels scaled to [0, 1]: a grey colour gets hue and saturation 0, otherwise hue from the largest channel and saturation relative to the lighter or darker half. Its ranges are stated by `RgbToHslInRange` and `GreyHasNoHue` |
| ColorInterpolation.HslToRgb | lab-simulator/frontend/src/utils/colorInterpolation.js:50-76 | hslToRgb with the hue2rgb sectors of section 4.2.4 of CSS Color Module Level 3, each channel rounded by Math.round. `HslToRgbGrey` and `HslToRgbInGamut` state what it promises |
| ColorInterpolation.BlendHsl | lab-simulator/frontend/src/utils/colorInterpolation.js:91-98 | the hue stepped along the shorter arc, with saturation and lightness linear in t. `BlendHslBetween`, `BlendHslInRange` and `BlendHslAtZero` state its properties |
| ColorInterpolation.GetColorAtProgress | lab-simulator/frontend/src/utils/colorInterpolation.js:110-124 | getColorAtProgress: an empty list gives #F0F0F0, the ends return their colour strings, and otherwise the first bracketing pair is blended. `GetColorAtProgressEnds` and `GetColorAtProgressInterior` state this, and the second also proves the fallback unreachable |
| ColorInterpolation.StretchProgress | lab-simulator/frontend/src/utils/colorInterpolation.js:132-137 | the progress remap: [0.85, 1.0] goes linearly onto [0.70, 1.15], then every value is rounded to three decimals. `StretchWindowEnds`, `StretchProgressRange` and `StretchKeepsOutside` state its effect |
| ColorInterpolation.LightenColor | lab-simulator/frontend/src/utils/colorInterpolation.js:147-152 | one colour lightened: parsed, l + 20 capped at 100, s - 15 floored at 0, then printed. `ShiftsStayInRange` and `ModifiersStayInRange` bound the shift |
| ColorInterpolation.DarkenColor | lab-simulator/frontend/src/utils/colorInterpolation.js:162-167 | one colour darkened: parsed, l - 15 and s - 10 floored at 0, then printed. `ShiftsStayInRange` and `ModifiersStayInRange` bound the shift |
| TitrationStore.EffectiveTransitions | lab-simulator/frontend/src/store/useTitrationStore.js:24-34 | only a poor buffer moves progress points; only 'faint' or 'dark' changes colours, to canonical hex; otherwise the list is unchanged |
| TitrationStore.ApplyModifiers | lab-simulator/frontend/src/store/useTitrationStore.js:24-34 | the step-by-step pipeline yields exactly EffectiveTransitions |
| TitrationStore.InitialColorIsColorAtZero | lab-simulator/frontend/src/store/useTitrationStore.js:43 | for a list starting at progress 0 or later, the initial colour is the lookup's colour at progress 0 |
| TitrationStore.Progress | lab-simulator/frontend/src/store/useTitrationStore.js:81-86 | 0 when the expected volume is not positive, otherwise the p with p * expected == volume |
| TitrationStore.NextVolumeIsHundredths | lab-simulator/frontend/src/store/useTitrationStore.js:53-63 | the stored volume is always whole hundredths |
| TitrationStore.NextVolumeBounded | lab-simulator/frontend/src/store/useTitrationStore.js:53-63 | a capacity in whole hundredths is never exceeded |
| TitrationStore.NextVolumeMonotone | lab-simulator/frontend/src/store/useTitrationStore.js:53-63 | adding a non-negative amount never lowers a volume within capacity |
| TitrationStore.NextVolumeAtCapacity | lab-simulator/frontend/src/store/useTitrationStore.js:53-63 | once at capacity, further additions leave the volume where it is |
| TitrationStore.EndpointExamples | lab-simulator/frontend/src/store/useTitrationStore.js:89-101 | with expected 20 and tolerance 0.3: 20.2 is near and not past; 23 is past and not near |
| TitrationStore.NearExcludesPast | lab-simulator/frontend/src/store/useTitrationStore.js:89-101 | both tests are false for expected volume 0; with a tolerance of at most 10% of the expected volume, near and past exclude each other |
| TitrationStore.TitrationTracker.constructor | lab-simulator/frontend/src/store/useTitrationStore.js:11-20 | the store's initial field values |
| TitrationStore.TitrationTracker.InitTitration | lab-simulator/frontend/src/store/useTitrationStore.js:23-48 | the modified transition list, volume 0, each falsy setting replaced by its default, the first colour or '#F0F0F0', and the invariant |
| TitrationStore.TitrationTracker.ResetSettings | lab-simulator/frontend/src/store/useTitrationStore.js:36-46 | the numeric fields of initTitration's update |
| TitrationStore.TitrationTracker.AddVolume | lab-simulator/frontend/src/store/useTitrationStore.js:51-66 | volume = round2(min(volume + amount, capacity)); colour = lookup at the unrounded capped volume over the expected volume (0 if not positive); invariant kept |
| TitrationStore.TitrationTracker.AddDrop | lab-simulator/frontend/src/store/useTitrationStore.js:68-71 | exactly addVolume(dropVolume) |
| TitrationStore.TitrationTracker.AddStream | lab-simulator/frontend/src/store/useTitrationStore.js:73-76 | exactly addVolume(streamVolume) |
| TitrationStore.TitrationTracker.SetIsDropping | lab-simulator/frontend/src/store/useTitrationStore.js:78 | only isDropping changes |
| TitrationStore.TitrationTracker.ResetTitration | lab-simulator/frontend/src/store/useTitrationStore.js:104-109 | volume 0, colour '#CD5C5C', flags cleared; transitions, expected volume and limits untouched |
| TitrationStore.NextVolume | lab-simulator/frontend/src/store/useTitrationStore.js:53-63 | the stored volume round2(min(v + a, cap)). Its bound, monotonicity and fixed point at capacity are `NextVolumeBounded`, `NextVolumeMonotone` and `NextVolumeAtCapacity` |
| TitrationStore.TitrationTracker.GetProgress | lab-simulator/frontend/src/store/useTitrationStore.js:81-86 | getProgress reads the fields through `Progress`, whose contract gives 0 for a non-positive expected volume and volume / expected otherwise |
| TitrationStore.TitrationTracker.IsNearEndpoint | lab-simulator/frontend/src/store/useTitrationStore.js:89-94 | isNearEndpoint: false at expected 0, else distance within the tolerance. `EndpointExamples` and `NearExcludesPast` state its cases |
| TitrationStore.TitrationTracker.IsPastEndpoint | lab-simulator/frontend/src/store/useTitrationStore.js:97-101 | isPastEndpoint: false at expected 0, else volume above 110% of expected. `EndpointExamples` and `NearExcludesPast` state its cases |
| Assembly.BufferTarget | lab-simulator/frontend/src/hooks/useAssembly.js:81-83 | the buffer pour's target never exceeds the 0.65 fill limit |
| Assembly.StepKeepsInv | lab-simulator/frontend/src/hooks/useAssembly.js:43-157 | every callback keeps the sub-step in 1..4, a pending completion matched to its sub-step, and completion only at 4 with a drop |
| Assembly.RunKeepsInv | lab-simulator/frontend/src/hooks/useAssembly.js:43-157 | the same over any sequence of events |
| Assembly.StepAdvancesByAtMostOne | lab-simulator/frontend/src/hooks/useAssembly.js:68-127 | without a reset one event never lowers the sub-step and raises it by at most one |
| Assembly.RunNeverGoesBack | lab-simulator/frontend/src/hooks/useAssembly.js:68-127 | over events without reset the sub-step never goes back |
| Assembly.AnimatingBlocksActions | lab-simulator/frontend/src/hooks/useAssembly.js:44-110 | while animating, pourWater, pourBuffer and addIndicatorDrop are silent no-ops |
| Assembly.DropCountChangesOnlyOnTimer | lab-simulator/frontend/src/hooks/useAssembly.js:113-116 | the drop count changes only when the drop timeout fires (or on reset), and then only by one |
| Assembly.IdleIgnoresCompletions | lab-simulator/frontend/src/hooks/useAssembly.js:143-157 | with nothing pending, frames and timeouts change nothing; after reset a stale frame or timeout leaves the initial state |
| Assembly.DropColorSaturates | lab-simulator/frontend/src/hooks/useAssembly.js:118-119 | any count from 10 on shows the 10-drop colour |
| Assembly.WaterRampFill | lab-simulator/frontend/src/hooks/useAssembly.js:55-59 | during the water ramp the fill is target * eased progress, within [0, target] |
| Assembly.WaterRampCylinder | lab-simulator/frontend/src/hooks/useAssembly.js:55-58 | during the water ramp the cylinder is start * (1 - eased progress), within [0, start] |
| Assembly.BufferRampBetween | lab-simulator/frontend/src/hooks/useAssembly.js:90-93 | during the buffer ramp the fill stays between the start level and the target |
| Assembly.WaterTargetInRange | lab-simulator/frontend/src/hooks/useAssembly.js:47 | measured water within capacity gives a water target in [0, 0.65] |
| Assembly.BufferTargetInRange | lab-simulator/frontend/src/hooks/useAssembly.js:81-83 | a non-negative amount from a start in [0, 0.65] gives a target in [start, 0.65] |
| Assembly.StepKeepsFillInRange | lab-simulator/frontend/src/hooks/useAssembly.js:43-107 | every event keeps the flask level and each ramp's ends within [0, 0.65] |
| Assembly.RunKeepsFillInRange | lab-simulator/frontend/src/hooks/useAssembly.js:43-107 | the same over any sequence of well-formed events |
| Assembly.WaterPourCompletes | lab-simulator/frontend/src/hooks/useAssembly.js:43-74 | a water pour at sub-step 2 ends with cylinder 0, the water level, colour '#F8F8FF', sub-step 3 and no animation |
| Assembly.BufferPourCompletes | lab-simulator/frontend/src/hooks/useAssembly.js:76-107 | a buffer pour at sub-step 3 records the amount and ends at the target, colour '#F0F0F0', sub-step 4 |
| Assembly.DropLands | lab-simulator/frontend/src/hooks/useAssembly.js:109-123 | a drop at sub-step 4 lands when its timeout fires: one more drop and that count's colour |
| Assembly.HappyPath | lab-simulator/frontend/src/hooks/useAssembly.js:43-135 | confirm, both pours, one drop and finish complete the assembly with the expected state |
| Assembly.AssemblyHook.constructor | lab-simulator/frontend/src/hooks/useAssembly.js:18-31 | the hook's initial state |
| Assembly.AssemblyHook.ConfirmStep1 | lab-simulator/frontend/src/hooks/useAssembly.js:125-129 | moves the state as AfterConfirm: 1 to 2, otherwise nothing |
| Assembly.AssemblyHook.PourWater | lab-simulator/frontend/src/hooks/useAssembly.js:43-73 | moves the state as AfterPourWater |
| Assembly.AssemblyHook.PourBuffer | lab-simulator/frontend/src/hooks/useAssembly.js:76-106 | moves the state as AfterPourBuffer |
| Assembly.AssemblyHook.AddIndicatorDrop | lab-simulator/frontend/src/hooks/useAssembly.js:109-115 | moves the state as AfterAddDrop |
| Assembly.AssemblyHook.Frame | lab-simulator/frontend/src/hooks/useAssembly.js:52-104 | one frame of the running ramp moves the state as AfterFrame |
| Assembly.AssemblyHook.TimerFired | lab-simulator/frontend/src/hooks/useAssembly.js:115-122 | the drop timeout moves the state as AfterTimer |
| Assembly.AssemblyHook.FinishAssembly | lab-simulator/frontend/src/hooks/useAssembly.js:131-135 | completes only at sub-step 4 with at least one drop |
| Assembly.AssemblyHook.SetBufferAmount | lab-simulator/frontend/src/hooks/useAssembly.js:24 | only the buffer amount changes |
| Assembly.AssemblyHook.Cleanup | lab-simulator/frontend/src/hooks/useAssembly.js:138-141 | cancels the pending frame or timeout |
| Assembly.AssemblyHook.Reset | lab-simulator/frontend/src/hooks/useAssembly.js:143-157 | cancels what is pending and restores the initial state |
| Assembly.Initial | lab-simulator/frontend/src/hooks/useAssembly.js:19-26 | the hook's initial fields, which `AssemblyHook.Reset` restores |
| Assembly.AfterConfirm | lab-simulator/frontend/src/hooks/useAssembly.js:125-129 | confirmStep1 moves 1 to 2 and is a no-op elsewhere. `StepAdvancesByAtMostOne` and `StepKeepsInv` state what every transition keeps |
| Assembly.AfterPourWater | lab-simulator/frontend/src/hooks/useAssembly.js:43-51 | pourWater starts the water ramp only at sub-step 2 with no animation running. `AnimatingBlocksActions` and `WaterPourCompletes` state its guard and outcome |
| Assembly.AfterPourBuffer | lab-simulator/frontend/src/hooks/useAssembly.js:76-86 | pourBuffer records the amount and starts the buffer ramp only at sub-step 3 with no animation running. `BufferPourCompletes` and `BufferTargetInRange` state its outcome |
| Assembly.AfterAddDrop | lab-simulator/frontend/src/hooks/useAssembly.js:109-115 | addIndicatorDrop schedules the drop timeout only at sub-step 4 with no animation running. `DropCountChangesOnlyOnTimer` states that the count moves only when the timeout fires |
| Assembly.DropColor | lab-simulator/frontend/src/hooks/useAssembly.js:117-119 | the blend #F0F0F0 to #D07070 at min(1, n / 10). `DropColorSaturates` states its saturation |
| Assembly.AfterFrame | lab-simulator/frontend/src/hooks/useAssembly.js:52-104 | one frame of the running ramp, ending the pour at the last one. `WaterRampFill`, `WaterRampCylinder`, `BufferRampBetween` and `StepKeepsFillInRange` state its bounds |
| Assembly.AfterTimer | lab-simulator/frontend/src/hooks/useAssembly.js:115-122 | the drop timeout sets the count, the colour and clears the animation. `DropLands` states its outcome |
| Assembly.AfterFinish | lab-simulator/frontend/src/hooks/useAssembly.js:131-135 | finishAssembly completes only at sub-step 4 with a drop. `StepKeepsInv` carries the completion invariant |
| Assembly.AfterCleanup | lab-simulator/frontend/src/hooks/useAssembly.js:138-141 | cleanup cancels the pending frame or timeout. `IdleIgnoresCompletions` states that nothing cancelled can still fire |
| Assembly.Step | lab-simulator/frontend/src/hooks/useAssembly.js:43-157 | one event of the hook: a user action, a frame, the timeout, unmount or reset. `RunKeepsInv` and `RunNeverGoesBack` state what any sequence of them keeps |
| SequentialAssembly.ApplyIdempotent | lab-simulator/frontend/src/hooks/useSequentialAssembly.js:36-46 | applying the same visualAfter twice is applying it once |
| SequentialAssembly.ApplyKeepsAbsentEntries | lab-simulator/frontend/src/hooks/useSequentialAssembly.js:36-46 | a patch changes only the entries it carries; an explicit null precipitate clears it |
| SequentialAssembly.PourEndsAtPatch | lab-simulator/frontend/src/hooks/useSequentialAssembly.js:62-119 | ending a pour at its target level and then applying the patch gives the patch alone |
| SequentialAssembly.InitialInv | lab-simulator/frontend/src/hooks/useSequentialAssembly.js:17-31 | the initial state satisfies the invariant |
| SequentialAssembly.ExecuteKeepsInv | lab-simulator/frontend/src/hooks/useSequentialAssembly.js:77-134 | with the corrected click: a click keeps a valid index, at most one pending timeout (named by animTimeout) and a ramp only while animating |
| SequentialAssembly.FireKeepsInv | lab-simulator/frontend/src/hooks/useSequentialAssembly.js:89-133 | a timeout firing keeps the invariant |
| SequentialAssembly.StepKeepsInv | lab-simulator/frontend/src/hooks/useSequentialAssembly.js:49-156 | with the corrected click: every event keeps the invariant |
| SequentialAssembly.RunKeepsInv | lab-simulator/frontend/src/hooks/useSequentialAssembly.js:49-156 | with the corrected click: every event sequence keeps the invariant |
| SequentialAssembly.EmptyListNeverCompletes | lab-simulator/frontend/src/hooks/useSequentialAssembly.js:78 | with no steps the assembly never completes |
| SequentialAssembly.CompletedAtLastStep | lab-simulator/frontend/src/hooks/useSequentialAssembly.js:92-132 | with the corrected click: once completed, the index is the last step |
| SequentialAssembly.ResetSilencesPendingJobs | lab-simulator/frontend/src/hooks/useSequentialAssembly.js:141-156 | from any state keeping the invariant, reset leaves the initial state with no timeout and no ramp, and no later frame or timeout changes it |
| SequentialAssembly.StepNeverGoesBack | lab-simulator/frontend/src/hooks/useSequentialAssembly.js:92-132 | with the corrected click: without reset one event moves the index forward by at most one and never undoes completion |
| SequentialAssembly.RunNeverGoesBack | lab-simulator/frontend/src/hooks/useSequentialAssembly.js:92-132 | with the corrected click: any event sequence without reset never moves the index back nor undoes completion |
| SequentialAssembly.AnimatingBlocksExecute | lab-simulator/frontend/src/hooks/useSequentialAssembly.js:78 | a click while animating is ignored |
| SequentialAssembly.RampStaysBetween | lab-simulator/frontend/src/hooks/useSequentialAssembly.js:55-63 | during a ramp the fill stays between the ramp's start and its target |
| SequentialAssembly.InstantStepCompletes | lab-simulator/frontend/src/hooks/useSequentialAssembly.js:87-116 | a cover or add_indicator step applies its patch and advances when its 600 or 800 ms timeout fires |
| SequentialAssembly.ClickStartsPour | lab-simulator/frontend/src/hooks/useSequentialAssembly.js:49-133 | a click on a pour step starts the ramp towards the patch's level and schedules the advance after duration + 100 ms |
| SequentialAssembly.LastFrame | lab-simulator/frontend/src/hooks/useSequentialAssembly.js:65-70 | the last frame ends the ramp at its target, applies its patch and stops the animation |
| SequentialAssembly.FireOnly | lab-simulator/frontend/src/hooks/useSequentialAssembly.js:89-133 | the only pending timeout fires and runs its job |
| SequentialAssembly.PourStepCompletes | lab-simulator/frontend/src/hooks/useSequentialAssembly.js:118-133 | a pour step's click, last frame and advance timeout carry the step to its end |
| SequentialAssembly.OneStepCompletes | lab-simulator/frontend/src/hooks/useSequentialAssembly.js:77-134 | any step started from a settled state is carried to its end by its events |
| SequentialAssembly.WalkFrom | lab-simulator/frontend/src/hooks/useSequentialAssembly.js:77-134 | from step k on, running every step in turn completes the assembly with the steps' patches applied in order |
| SequentialAssembly.AssemblyWalkThrough | lab-simulator/frontend/src/hooks/useSequentialAssembly.js:17-134 | executing every step from the initial state completes on the last step with every patch applied over the empty flask |
| SequentialAssembly.StaleAdvanceAfterReset | lab-simulator/frontend/src/hooks/useSequentialAssembly.js:122-148 | as written, a second click in the 100 ms gap and then a reset let the first advance land on the reset assembly and mark it completed |
| SequentialAssembly.ClearedAdvanceAfterReset | lab-simulator/frontend/src/hooks/useSequentialAssembly.js:126-148 | with the earlier timeout cleared on each click, the same events leave the reset state untouched |
| SequentialAssembly.SequentialAssemblyHook.TotalSteps | lab-simulator/frontend/src/hooks/useSequentialAssembly.js:34 | the number of steps: the current index is below it, or both are 0 for an empty list |
| SequentialAssembly.SequentialAssemblyHook.CurrentStep | lab-simulator/frontend/src/hooks/useSequentialAssembly.js:33 | the step at the current index, or none for an empty list |
| SequentialAssembly.SequentialAssemblyHook.constructor | lab-simulator/frontend/src/hooks/useSequentialAssembly.js:16-31 | the hook's initial state |
| SequentialAssembly.SequentialAssemblyHook.ClearAnimTimeout | lab-simulator/frontend/src/hooks/useSequentialAssembly.js:137-142 | clearTimeout of the timeout animTimeout names |
| SequentialAssembly.SequentialAssemblyHook.SetAnimTimeout | lab-simulator/frontend/src/hooks/useSequentialAssembly.js:89-126 | setTimeout with the next id, stored in animTimeout |
| SequentialAssembly.SequentialAssemblyHook.ExecuteStep | lab-simulator/frontend/src/hooks/useSequentialAssembly.js:77-134 | moves the state as the corrected AfterExecute: the earlier timeout cleared, then the action's dispatch |
| SequentialAssembly.SequentialAssemblyHook.StartAnimation | lab-simulator/frontend/src/hooks/useSequentialAssembly.js:50-89 | sets isAnimating, starts the ramp when there is one, schedules the timeout |
| SequentialAssembly.SequentialAssemblyHook.AnimationFrame | lab-simulator/frontend/src/hooks/useSequentialAssembly.js:54-72 | one frame moves the state as AfterFrame |
| SequentialAssembly.SequentialAssemblyHook.TimeoutFired | lab-simulator/frontend/src/hooks/useSequentialAssembly.js:89-133 | a held timeout runs its job as AfterFire |
| SequentialAssembly.SequentialAssemblyHook.Cleanup | lab-simulator/frontend/src/hooks/useSequentialAssembly.js:136-139 | cancels animTimeout's timeout and the frame |
| SequentialAssembly.SequentialAssemblyHook.Reset | lab-simulator/frontend/src/hooks/useSequentialAssembly.js:141-156 | restores the initial state with no timeout and no frame left |
| SequentialAssembly.ApplyVisualAfter | lab-simulator/frontend/src/hooks/useSequentialAssembly.js:36-46 | the visualAfter merge: fields override when present, precipitate also when explicitly null. `ApplyKeepsAbsentEntries` and `ApplyIdempotent` state the merge rules |
| SequentialAssembly.AfterExecuteAsWritten | lab-simulator/frontend/src/hooks/useSequentialAssembly.js:77-134 | executeStep as written: the guard, then an instant step's timeout or a pour's ramp plus its advance timeout, overwriting animTimeout. `StaleAdvanceAfterReset` shows the timeout it leaves behind |
| SequentialAssembly.AfterExecute | lab-simulator/frontend/src/hooks/useSequentialAssembly.js:77-134 | executeStep with the earlier timeout cleared first. `ExecuteKeepsInv`, `InstantStepCompletes` and `ClickStartsPour` state its effect |
| SequentialAssembly.AfterFrame | lab-simulator/frontend/src/hooks/useSequentialAssembly.js:54-71 | one ramp frame, applying the patch and stopping the animation at the last one. `RampStaysBetween` and `LastFrame` state its bounds and end |
| SequentialAssembly.AfterFire | lab-simulator/frontend/src/hooks/useSequentialAssembly.js:89-98 | a held timeout runs its job and advances from the index it captured. `FireKeepsInv` and `CompletedAtLastStep` state what it keeps |
| SequentialAssembly.AfterCleanup | lab-simulator/frontend/src/hooks/useSequentialAssembly.js:136-139 | cleanup cancels animTimeout's timeout and the frame. `StepKeepsInv` covers it |
| SequentialAssembly.AfterReset | lab-simulator/frontend/src/hooks/useSequentialAssembly.js:141-156 | reset cancels animTimeout's timeout and the frame and restores the initial flask and index. `ResetSilencesPendingJobs` states that nothing pending then moves it |
| SequentialAssembly.Step | lab-simulator/frontend/src/hooks/useSequentialAssembly.js:77-156 | one event of the hook with the corrected click: a click, a frame, a timeout, unmount or reset. `RunKeepsInv` and `RunNeverGoesBack` state what any sequence of them keeps |
| TitrationEngine.GetExpectedVolumeOutcome | lab-simulator/backend/services/titration_engine.py:5-25 | raises for an unknown practice or one without a titration section, fails exactly where the calculator fails, and otherwise is within half a ten-thousandth of it |
| TitrationEngine.PyRound4Close | lab-simulator/backend/services/titration_engine.py:23 | round(v, 4) moves v by at most 0.00005 |
| TitrationEngine.LStripHash | lab-simulator/backend/services/titration_engine.py:60 | lstrip('#') removes exactly the leading '#'s |
| TitrationEngine.Pair | lab-simulator/backend/services/titration_engine.py:61 | a slice s[i:i+2] has at most two characters |
| TitrationEngine.ParseHexPair | lab-simulator/backend/services/titration_engine.py:61 | two hex digits parse to 16 * first + second, below 256 |
| TitrationEngine.PairsToRgbOfTriplet | lab-simulator/backend/services/titration_engine.py:61 | six hex digits parse to the three pair values |
| TitrationEngine.HexToRgbTupleOfTriplet | lab-simulator/backend/services/titration_engine.py:59-61 | any number of leading '#'s plus six hex digits parse to the three pair values |
| TitrationEngine.ChannelsOf | lab-simulator/backend/services/titration_engine.py:61 | the channels a '#rrggbb' colour names are in 0..255 |
| TitrationEngine.HexColorParses | lab-simulator/backend/services/titration_engine.py:59-61 | a '#rrggbb' colour parses to the channels it names |
| TitrationEngine.LStripHashOfHexColor | lab-simulator/backend/services/titration_engine.py:60 | stripping a '#rrggbb' colour leaves its six digits |
| TitrationEngine.HexToRgbTupleIgnoresTail | lab-simulator/backend/services/titration_engine.py:61 | characters after the first six are never read |
| TitrationEngine.ShortColorRaises | lab-simulator/backend/services/titration_engine.py:61 | four characters or fewer after the '#'s raise, so '#fff' is rejected |
| TitrationEngine.GetColorAtProgressEnds | lab-simulator/backend/services/titration_engine.py:28-41 | an unknown practice or an empty list gives '#F0F0F0'; the ends give their colour strings unchanged |
| TitrationEngine.BlendChannelBetween | lab-simulator/backend/services/titration_engine.py:51-53 | int(a + (b - a) * t) with t in [0, 1] lies between a and b, and is b at t = 1 |
| TitrationEngine.FormatRgbShape | lab-simulator/backend/services/titration_engine.py:54 | three channels in 0..255 print as '#' plus six lower-case hex digits |
| TitrationEngine.BlendRgbInGamut | lab-simulator/backend/services/titration_engine.py:51-54 | each blended channel is in 0..255 and between the pair's channels |
| TitrationEngine.BlendPairOfHexColors | lab-simulator/backend/services/titration_engine.py:47-54 | two '#rrggbb' colours always blend without raising |
| TitrationEngine.ColorAtInterior | lab-simulator/backend/services/titration_engine.py:43-56 | strictly inside the range, with '#rrggbb' colours, the lookup does not raise and returns canonical hex whose channels lie between those of the first bracketing pair |
| TitrationEngine.GetColorAtProgressInterior | lab-simulator/backend/services/titration_engine.py:28-56 | for a registered practice with '#rrggbb' colours, an interior progress gives canonical hex without raising |
| TitrationEngine.GetExpectedVolume | lab-simulator/backend/services/titration_engine.py:5-25 | get_expected_volume over the registry's map. `GetExpectedVolumeOutcome` states its failures and its rounding |
| TitrationEngine.HexToRgbTuple | lab-simulator/backend/services/titration_engine.py:59-61 | _hex_to_rgb: strip leading #, parse three two-character slices. `HexToRgbTupleOfTriplet`, `HexToRgbTupleIgnoresTail` and `ShortColorRaises` state what it accepts |
| TitrationEngine.BlendRgb | lab-simulator/backend/services/titration_engine.py:49-53 | per-channel int(a + (b - a) t). `BlendRgbInGamut` states that each channel stays between the pair's |
| TitrationEngine.GetColorAtProgress | lab-simulator/backend/services/titration_engine.py:28-36 | get_color_at_progress over the registry's map. `GetColorAtProgressEnds` and `GetColorAtProgressInterior` state its results |
| TitrationEngine.ColorAt | lab-simulator/backend/services/titration_engine.py:38-56 | the lookup once the breakpoints are in hand. `ColorAtInterior` states its interior results |
| CalculationEngine.BaseVolumeChoice | lab-simulator/backend/services/calculation_engine.py:9-12 | the sample table is used exactly when a non-empty sample id is given and the table exists; a missing entry raises |
| CalculationEngine.ExpectedVolumeFailsExactly | lab-simulator/backend/services/calculation_engine.py:4-22 | fails exactly on a missing section, a missing sample entry, a missing reference or a zero divisor; fixed, direct, inverse and other rules otherwise |
| CalculationEngine.ScaleAtReference | lab-simulator/backend/services/calculation_engine.py:16-21 | direct and inverse give the base volume when measured equals reference |
| CalculationEngine.ScaleMonotone | lab-simulator/backend/services/calculation_engine.py:16-21 | direct grows and inverse shrinks with the measured value |
| CalculationEngine.DirectTimesInverse | lab-simulator/backend/services/calculation_engine.py:16-21 | the direct and inverse volumes of one sample multiply to the base volume squared |
| CalculationEngine.ValidationOutcome | lab-simulator/backend/services/calculation_engine.py:25-61 | fails exactly for an unknown practice, a missing calculation section or practice 5 with a zero sample; otherwise the tolerance is the configured one and the verdict compares the unrounded percent error with it |
| CalculationEngine.PercentErrorFacts | lab-simulator/backend/services/calculation_engine.py:42-45 | an exact answer has error 0 and a positive correct value gives no negative error |
| CalculationEngine.OtherPracticesAlwaysWithin | lab-simulator/backend/services/calculation_engine.py:35-47 | every practice but 5 has correct value 0, so any answer is within a non-negative tolerance |
| CalculationEngine.RoundedErrorCanLookWithin | lab-simulator/backend/services/calculation_engine.py:47-57 | an error of 5.004 is reported as 5.0 yet judged outside a tolerance of 5 |
| CalculationEngine.CalculateExpectedVolume | lab-simulator/backend/services/calculation_engine.py:4-22 | calculate_expected_volume: the base volume scaled by the proportionality rule. `BaseVolumeChoice`, `ExpectedVolumeFailsExactly`, `ScaleAtReference` and `ScaleMonotone` state its behaviour |
| CalculationEngine.CorrectResult | lab-simulator/backend/services/calculation_engine.py:35-40 | practice 5's hardness formula, 0 for any other practice. `OtherPracticesAlwaysWithin` and `Practice5MatchesServer` use it |
| CalculationEngine.PercentError | lab-simulator/backend/services/calculation_engine.py:42-45 | 0 for a zero correct value, otherwise |s - c| / c * 100. `PercentErrorFacts` states its cases |
| CalculationEngine.ValidateStudentCalculation | lab-simulator/backend/services/calculation_engine.py:25-60 | validate_student_calculation over the registry's map. `ValidationOutcome` and `RoundedErrorCanLookWithin` state its failures and its unrounded comparison |
| ChemistryCalculations.Practice4Decreasing | lab-simulator/frontend/src/utils/chemistryCalculations.js:32-38 | the practice-4 result falls strictly as the thiocyanate volume grows, and is 0 at 62.5 mL |
| ChemistryCalculations.Practice5Linear | lab-simulator/frontend/src/utils/chemistryCalculations.js:43-47 | the practice-5 result is linear in the EDTA volume and 0 at 0 |
| ChemistryCalculations.PercentErrorFacts | lab-simulator/frontend/src/utils/chemistryCalculations.js:52-55 | 0 for a zero correct value or an exact answer, and non-negative for a positive correct value |
| ChemistryCalculations.Practice5MatchesServer | lab-simulator/frontend/src/utils/chemistryCalculations.js:43-55 | browser and server compute the same hardness and the same percent error |
| ChemistryCalculations.ExpectedVolumeMatchesServer | lab-simulator/frontend/src/utils/chemistryCalculations.js:8-26 | where the server computes an expected volume the browser computes the same one, except for a zero table entry, where the browser falls back |
| ChemistryCalculations.ScaleMatchesServer | lab-simulator/frontend/src/utils/chemistryCalculations.js:16-25 | where the server's rule gives a value, the browser's switch gives the same |
| ChemistryCalculations.MissingSampleDiffers | lab-simulator/frontend/src/utils/chemistryCalculations.js:12-14 | for a sample missing from the table the server raises while the browser uses expectedVolume |
| ChemistryCalculations.CalculateExpectedVolume | lab-simulator/frontend/src/utils/chemistryCalculations.js:8-26 | the browser's expected volume. `ExpectedVolumeMatchesServer` and `MissingSampleDiffers` compare it with the server |
| ChemistryCalculations.CalculatePractice4 | lab-simulator/frontend/src/utils/chemistryCalculations.js:32-38 | (50 * 0.10 - v * 0.08) * 35.45 / m. `Practice4Decreasing` states its shape |
| ChemistryCalculations.CalculatePractice5 | lab-simulator/frontend/src/utils/chemistryCalculations.js:43-47 | v * 0.01 * 100.09 * 1000 / m. `Practice5Linear` and `Practice5MatchesServer` state its properties |
| ChemistryCalculations.CalculatePercentError | lab-simulator/frontend/src/utils/chemistryCalculations.js:52-55 | 0 when correct is 0, else |s - c| / c * 100. `PercentErrorFacts` states its cases |
| ReportGenerator.FirstTier | lab-simulator/backend/services/report_generator.py:53-57 | the first tier admitting the error; every earlier tier rejects it; none means all do |
| ReportGenerator.SelectTier | lab-simulator/backend/services/report_generator.py:53-57 | the tier loop returns the first admitting tier's score and feedback, or (0, "") |
| ReportGenerator.FirstTierMonotone | lab-simulator/backend/services/report_generator.py:53-57 | a smaller error is admitted no later than a larger one |
| ReportGenerator.SmallerErrorScoresNoLess | lab-simulator/backend/services/report_generator.py:53-68 | with scores falling along the list, a smaller error never scores less |
| ReportGenerator.ScoreOne | lab-simulator/backend/services/report_generator.py:12-71 | the body of the criterion loop gives the criterion's outcome |
| ReportGenerator.GenerateReport | lab-simulator/backend/services/report_generator.py:4-102 | the loop builds exactly the report ReportOf describes |
| ReportGenerator.EntriesMatchCriteria | lab-simulator/backend/services/report_generator.py:11-79 | one entry per criterion, in order, with its id, label, weight as max score and its outcome |
| ReportGenerator.ReportHasOneEntryPerCriterion | lab-simulator/backend/services/report_generator.py:6-79 | the report's entries are the practice's criteria, one each, in order |
| ReportGenerator.BooleanCriterionScore | lab-simulator/backend/services/report_generator.py:18-46 | a boolean criterion scores its weight when its session flag is set and 0 otherwise; an unknown id scores 0 with empty feedback |
| ReportGenerator.EndpointScore | lab-simulator/backend/services/report_generator.py:50-60 | with truthy expected and recorded volumes the first tier admitting their distance scores, else 0; a missing or zero volume scores 0 |
| ReportGenerator.ZeroReadingScoresNothing | lab-simulator/backend/services/report_generator.py:51 | a reading of exactly 0.0 counts as no reading |
| ReportGenerator.CalculationScore | lab-simulator/backend/services/report_generator.py:62-71 | the first tier admitting the percent error scores, or 0 without one |
| ReportGenerator.OtherCriteriaScoreNothing | lab-simulator/backend/services/report_generator.py:15-62 | other types, and range criteria with other ids, score 0 with empty feedback |
| ReportGenerator.ReportTotals | lab-simulator/backend/services/report_generator.py:80-97 | total = sum of entry scores rounded to 2 decimals; passed compares the unrounded sum with passingScore (default 60); band reads the unrounded sum; maxScore defaults to 100 |
| ReportGenerator.SumOfEntries | lab-simulator/backend/services/report_generator.py:73-80 | the sum over the entries is the sum of the criteria's outcomes |
| ReportGenerator.AllFlagsScoreFullWeight | lab-simulator/backend/services/report_generator.py:18-80 | a session meeting every boolean criterion scores the sum of the weights |
| ReportGenerator.BandIgnoresPassingScore | lab-simulator/backend/services/report_generator.py:84-91 | with passingScore 50, a total of 55 passes yet reads as insufficient |
| ReportGenerator.RoundedTotalCanLookPassing | lab-simulator/backend/services/report_generator.py:84-97 | a sum of 59.996 is reported as 60.0 yet does not pass at 60 |
| ReportGenerator.TierOutcome | lab-simulator/backend/services/report_generator.py:50-71 | the first admitting tier's score and feedback, or (0, ""). `SelectTier` computes it with the loop and `FirstTierMonotone` relates errors |
| ReportGenerator.ScoreCriterion | lab-simulator/backend/services/report_generator.py:12-71 | one criterion's score and feedback by type and id. `BooleanCriterionScore`, `EndpointScore`, `CalculationScore` and `OtherCriteriaScoreNothing` state its cases |
| ReportGenerator.ReportOf | lab-simulator/backend/services/report_generator.py:4-101 | generate_report as a value, without the timestamp. `GenerateReport` computes it with the loops, and `ReportTotals` and `EntriesMatchCriteria` state its totals and entries |
| SimulatorStore.Remove | lab-simulator/frontend/src/store/useSimulatorStore.js:61-68 | filter removes every occurrence of the id and keeps every other element |
| SimulatorStore.ToggleMembership | lab-simulator/frontend/src/store/useSimulatorStore.js:59-71 | after a toggle the id is present exactly when it was absent; other ids keep their membership; an absent id is appended |
| SimulatorStore.ToggleTwiceRestores | lab-simulator/frontend/src/store/useSimulatorStore.js:59-64 | toggling an absent id twice restores the list exactly |
| SimulatorStore.ToggleKeepsDistinct | lab-simulator/frontend/src/store/useSimulatorStore.js:59-71 | a list without repeats keeps that property under toggling |
| SimulatorStore.Store.constructor | lab-simulator/frontend/src/store/useSimulatorStore.js:5-31 | the initial store |
| SimulatorStore.Store.SetPractice | lab-simulator/frontend/src/store/useSimulatorStore.js:34-53 | the new id and config, stage 1, everything cleared, the session id kept |
| SimulatorStore.Store.ClearSelections | lab-simulator/frontend/src/store/useSimulatorStore.js:37-46 | the selection and assembly part of setPractice's update |
| SimulatorStore.Store.ClearResults | lab-simulator/frontend/src/store/useSimulatorStore.js:47-52 | the results part of setPractice's update |
| SimulatorStore.Store.SetSessionId | lab-simulator/frontend/src/store/useSimulatorStore.js:55 | only the session id changes |
| SimulatorStore.Store.SetCurrentStage | lab-simulator/frontend/src/store/useSimulatorStore.js:56 | only the stage changes |
| SimulatorStore.Store.ToggleInstrument | lab-simulator/frontend/src/store/useSimulatorStore.js:59-64 | the instrument list is toggled and the reagent list untouched |
| SimulatorStore.Store.ToggleReagent | lab-simulator/frontend/src/store/useSimulatorStore.js:66-71 | the reagent list is toggled and the instrument list untouched |
| SimulatorStore.Store.SetMaterialsCorrect | lab-simulator/frontend/src/store/useSimulatorStore.js:73 | only materialsCorrect changes |
| SimulatorStore.Store.SetMeasurement | lab-simulator/frontend/src/store/useSimulatorStore.js:76 | the measured value and unit |
| SimulatorStore.Store.CompleteStep | lab-simulator/frontend/src/store/useSimulatorStore.js:79-81 | appends without looking, so duplicates are possible |
| SimulatorStore.Store.SetAssemblyCorrect | lab-simulator/frontend/src/store/useSimulatorStore.js:82 | only assemblyCorrect changes |
| SimulatorStore.Store.SetBufferVolume | lab-simulator/frontend/src/store/useSimulatorStore.js:83 | only bufferVolume changes |
| SimulatorStore.Store.SetIndicatorDrops | lab-simulator/frontend/src/store/useSimulatorStore.js:84 | only indicatorDrops changes |
| SimulatorStore.Store.SetRecordedVolume | lab-simulator/frontend/src/store/useSimulatorStore.js:87 | only recordedVolume changes |
| SimulatorStore.Store.SetCalculationResults | lab-simulator/frontend/src/store/useSimulatorStore.js:88-92 | the three calculation results |
| SimulatorStore.Store.SetReport | lab-simulator/frontend/src/store/useSimulatorStore.js:93 | the report, and its total_score as the total (none without a report) |
| SimulatorStore.Store.Reset | lab-simulator/frontend/src/store/useSimulatorStore.js:96-116 | every field cleared, the session id and practice included |
| SimulatorStore.ToggleInstrumentTwice | lab-simulator/frontend/src/store/useSimulatorStore.js:59-64 | two toggles of a fresh id on the store leave both lists as they were |
| Registry.PracticeRegistry.constructor | lab-simulator/backend/data/registry.py:15 | the registry starts empty |
| Registry.PracticeRegistry.RegisterPractice | lab-simulator/backend/data/registry.py:18-24 | the config is stored under its id, replacing an earlier one in place; a new id goes last; other ids unchanged |
| Registry.PracticeRegistry.GetPractice | lab-simulator/backend/data/registry.py:32-34 | a returned config is a registered one carrying the id asked for; None means no registered config has that id. The round trip (get after register gives the config) is `RegisterPractice` |
| Registry.PracticeRegistry.GetAllPractices | lab-simulator/backend/data/registry.py:27-29 | one config per registered id, in registration order |
| Registry.RegisterTwice | lab-simulator/backend/data/registry.py:23-24 | registering an id twice leaves the second config in place and adds at most one entry to the order |
| ExecutionStage.ReferenceOrDefault | lab-simulator/frontend/src/components/stages/S5_Execution.jsx:30 | the reference value, or 100 when missing or zero; never zero |
| ExecutionStage.MeasuredOrReference | lab-simulator/frontend/src/components/stages/S5_Execution.jsx:31 | the measured value, or the reference when missing or zero; never zero |
| ExecutionStage.DeriveModifiers | lab-simulator/frontend/src/components/stages/S5_Execution.jsx:40-49 | bufferQuality is set only with thresholds and a buffer volume: poor below poor, excess above excess, good otherwise; drops passed through; indicatorIntensity never set |
| ExecutionStage.NoMeasurementKeepsVolume | lab-simulator/frontend/src/components/stages/S5_Execution.jsx:29-37 | with no usable measurement the expected volume is the configured one |
| ExecutionStage.StageMatchesCalculator | lab-simulator/frontend/src/components/stages/S5_Execution.jsx:29-37 | with a configured reference and a measurement, the stage's volume equals the browser calculator's |
| ExecutionStage.MissingReferenceDefaultsToHundred | lab-simulator/frontend/src/components/stages/S5_Execution.jsx:30-34 | without a reference the calculator has no finite result while the stage scales against 100 |
| ExecutionStage.StageVolumeMonotone | lab-simulator/frontend/src/components/stages/S5_Execution.jsx:33-37 | a larger sample raises a direct volume and lowers an inverse one |
| ExecutionStage.StageModifiersKeepColours | lab-simulator/frontend/src/components/stages/S5_Execution.jsx:40-51 | whatever the assembly, the titration starts with the configured colours |
| ExecutionStage.OnlyPoorBufferMovesBreakpoints | lab-simulator/frontend/src/components/stages/S5_Execution.jsx:41-51 | without a poor buffer the stage's list is the configured list unchanged |
| ExecutionStage.StartTitration | lab-simulator/frontend/src/components/stages/S5_Execution.jsx:23-52 | the tracker is initialised only when a titration section exists, with the stage's expected volume and modifiers |
| ExecutionStage.ConfirmRecord | lab-simulator/frontend/src/components/stages/S5_Execution.jsx:59-69 | the burette reading is recorded and the stage becomes 6 |
| ExecutionStage.StageExpectedVolume | lab-simulator/frontend/src/components/stages/S5_Execution.jsx:29-37 | the stage's proportional volume with its defaults. `StageMatchesCalculator`, `NoMeasurementKeepsVolume` and `StageVolumeMonotone` state its behaviour |
| AssemblyStage.TrackStepsRecords | lab-simulator/frontend/src/components/stages/S4_Assembly.jsx:43-53 | each step id is recorded exactly when it already was or the sub-step has passed it; the old list stays a prefix |
| AssemblyStage.TrackStepsAtMostOnce | lab-simulator/frontend/src/components/stages/S4_Assembly.jsx:43-53 | the effect never records an id twice |
| AssemblyStage.TrackStepsIdempotent | lab-simulator/frontend/src/components/stages/S4_Assembly.jsx:43-53 | running the effect again at the same sub-step changes nothing |
| AssemblyStage.TrackCompletedSteps | lab-simulator/frontend/src/components/stages/S4_Assembly.jsx:43-53 | the effect against the store gives TrackSteps of the old list |
| AssemblyStage.AssemblyStageView.constructor | lab-simulator/frontend/src/components/stages/S4_Assembly.jsx:36 | the summary starts hidden |
| AssemblyStage.AssemblyStageView.HandleFinish | lab-simulator/frontend/src/components/stages/S4_Assembly.jsx:71-80 | records agregar_indicador at most once, finishes the hook, shows the summary, copies amount and drops, sets assemblyCorrect |
| AssemblyStage.FinishWithoutDrops | lab-simulator/frontend/src/components/stages/S4_Assembly.jsx:75-80 | a finish before any drop leaves the hook unfinished yet records a correct assembly; the button is disabled while `dropCount < 1` (S4_Assembly.jsx:266), so only a direct call of `handleFinish` reaches this |
| AssemblyStage.WarningsClassified | lab-simulator/frontend/src/components/stages/S4_Assembly.jsx:89-104 | no warning before the summary; at most one buffer and one indicator warning, each exactly under its threshold condition |
| AssemblyStage.BufferWarningMatchesQuality | lab-simulator/frontend/src/components/stages/S4_Assembly.jsx:94-98 | the buffer warning and the titration stage's buffer quality agree |
| AssemblyStage.CurrentStepIndex | lab-simulator/frontend/src/components/stages/S4_Assembly.jsx:106 | min(subStep - 1, steps - 1), as one of the two |
| AssemblyStage.CurrentStepIndexInRange | lab-simulator/frontend/src/components/stages/S4_Assembly.jsx:106 | for sub-steps 1..4 and a non-empty list the index is in range, and it is subStep - 1 while the sub-step is within the list |
| AssemblyStage.StageCapacity | lab-simulator/frontend/src/components/stages/S4_Assembly.jsx:22 | the hook's capacity is the range's upper end or 250, never zero |
| AssemblyStage.TrackSteps | lab-simulator/frontend/src/components/stages/S4_Assembly.jsx:43-53 | the step-tracking effect's three guarded appends. `TrackStepsRecords`, `TrackStepsAtMostOnce` and `TrackStepsIdempotent` state what it records |
| AssemblyStage.Warnings | lab-simulator/frontend/src/components/stages/S4_Assembly.jsx:92-104 | the summary warnings. `WarningsClassified` and `BufferWarningMatchesQuality` state their classification |
| MeasurementStage.UnitOf | lab-simulator/frontend/src/components/stages/S3_Measurement.jsx:71-72 | the unit shown is never empty: it is the configured unit or 'mL' |
| MeasurementStage.FillStepBounded | lab-simulator/frontend/src/components/stages/S3_Measurement.jsx:27-29 | a tick adds exactly 2 up to the maximum and keeps the volume in [0, max] in tenths |
| MeasurementStage.TicksFromEmpty | lab-simulator/frontend/src/components/stages/S3_Measurement.jsx:24-31 | after n ticks from empty the volume is min(2n, max) |
| MeasurementStage.TicksFrom | lab-simulator/frontend/src/components/stages/S3_Measurement.jsx:24-31 | after n ticks from v the volume is min(v + 2n, max) |
| MeasurementStage.AdjustedBounded | lab-simulator/frontend/src/components/stages/S3_Measurement.jsx:57-60 | adjustVolume keeps the volume in [0, max] and in tenths |
| MeasurementStage.AdjustUndone | lab-simulator/frontend/src/components/stages/S3_Measurement.jsx:57-60 | an in-range step is undone by the opposite step |
| MeasurementStage.MeasurementView.constructor | lab-simulator/frontend/src/components/stages/S3_Measurement.jsx:14-21 | volume 0, not confirmed, no interval running, limits 10 and 250 by default |
| MeasurementStage.MeasurementView.StartFilling | lab-simulator/frontend/src/components/stages/S3_Measurement.jsx:24-32 | unless confirmed, a new interval starts and its id overwrites the ref, while an interval already running keeps running |
| MeasurementStage.MeasurementView.StopFilling | lab-simulator/frontend/src/components/stages/S3_Measurement.jsx:34-45 | only the interval the ref names is cleared, and the ref is emptied |
| MeasurementStage.MeasurementView.FillTick | lab-simulator/frontend/src/components/stages/S3_Measurement.jsx:26-31 | a tick of any interval still running applies the fill updater, even once confirmed, keeping the volume in range |
| MeasurementStage.MeasurementView.AdjustVolume | lab-simulator/frontend/src/components/stages/S3_Measurement.jsx:55-61 | the clamped rounded volume, or no change once confirmed |
| MeasurementStage.MeasurementView.HandleReset | lab-simulator/frontend/src/components/stages/S3_Measurement.jsx:63-66 | volume 0 unless confirmed |
| MeasurementStage.MeasurementView.HandleConfirm | lab-simulator/frontend/src/components/stages/S3_Measurement.jsx:68-77 | nothing below the minimum or on a refused request; otherwise the store gets volume and unit and the stage locks |
| MeasurementStage.ConfirmedLocksVolume | lab-simulator/frontend/src/components/stages/S3_Measurement.jsx:55-66 | once confirmed neither a nudge nor reset changes the volume |
| MeasurementStage.SecondPressLeaksInterval | lab-simulator/frontend/src/components/stages/S3_Measurement.jsx:24-39 | two presses start two intervals, the release clears only the newer one, and the older one still adds 2 per tick |
| MeasurementStage.PressReleaseStops | lab-simulator/frontend/src/components/stages/S3_Measurement.jsx:24-39 | one press and one release leave no interval running, so a later tick changes nothing |
| MaterialSetup.Columns | lab-simulator/frontend/src/components/stages/S2_MaterialSetup.jsx:19 | at least one column |
| MaterialSetup.BenchHasSixColumns | lab-simulator/frontend/src/components/stages/S2_MaterialSetup.jsx:19-39 | the 700 px bench has six columns |
| MaterialSetup.NextPositionInjective | lab-simulator/frontend/src/components/stages/S2_MaterialSetup.jsx:12-24 | distinct item counts get distinct cells, all within the columns |
| MaterialSetup.GridCellOfAddedItem | lab-simulator/frontend/src/components/stages/S2_MaterialSetup.jsx:19-39 | the n-th item goes to x = 30 + (n mod 6) * 102, y = 20 + (n div 6) * 108 |
| MaterialSetup.RemoveItems | lab-simulator/frontend/src/components/stages/S2_MaterialSetup.jsx:109 | every item with the id goes and nothing else |
| MaterialSetup.MoveItems | lab-simulator/frontend/src/components/stages/S2_MaterialSetup.jsx:116-118 | only x and y of the matching items change |
| MaterialSetup.MoveKeepsIds | lab-simulator/frontend/src/components/stages/S2_MaterialSetup.jsx:116-118 | moving keeps the ids of each kind |
| MaterialSetup.AppendedIds | lab-simulator/frontend/src/components/stages/S2_MaterialSetup.jsx:90 | an appended item adds its id to its own kind only |
| MaterialSetup.MaterialBench.constructor | lab-simulator/frontend/src/components/stages/S2_MaterialSetup.jsx:35-38 | empty bench, not verified, no errors |
| MaterialSetup.MaterialBench.HandleAdd | lab-simulator/frontend/src/components/stages/S2_MaterialSetup.jsx:75-93 | no-op for an id already selected as this kind; otherwise toggled in and exactly one item appended at the drop point or the next cell; bench and store stay in step |
| MaterialSetup.MaterialBench.HandleRemove | lab-simulator/frontend/src/components/stages/S2_MaterialSetup.jsx:106-112 | toggles the id and removes its items; removing a selected id keeps bench and store in step |
| MaterialSetup.MaterialBench.HandleMoveItem | lab-simulator/frontend/src/components/stages/S2_MaterialSetup.jsx:115-119 | only the items' coordinates change; bench and store stay in step |

## Left out

- Rendering, layout and the Konva canvas are not part of this model.
- The HTTP calls (`api.*`) are left out, and so are their error handling and navigation. `HandleConfirm` takes whether the server accepted the request as a parameter.
- Floating point is not modelled: values are exact reals. Rounding is modelled where the code rounds, but IEEE-754 error is not.
- The exact moments of `requestAnimationFrame` and `setTimeout` are not modelled. Frames and timeouts are events in any order. A frame carries the elapsed fraction, capped at 1 as the code does.
- React's batching of state updates is not modelled. Callbacks reading a stale render's values are modelled only where the code makes them visible (the stale `currentStepIndex` captured by a timeout).
- Assembly.Machine: the flask colour is held as how it was obtained (`FlaskColor`: a fixed colour, or the blend for n drops). `Shown` gives the `#rrggbb` text the hook stores, so the text itself appears only through `Shown`.
- The f-string feedback texts of the calculator and the engine's explanation are left out. The report's `completed_at` timestamp is left out. The report's `session_id` and `practice_id` come from the session unchanged.
- Catalog names and icons of bench items are left out, and so is the `Math.random` shuffle of the stand lists.
- `handleVerify` and the S4 slider and drag handlers are left out: they are I/O, or they call modelled operations directly. The instruction text of S3 is left out too.
- The KeyError raised for a practice without `calculation` or `titration` section in the Python calculator appears as an error value (`PyError`), not as an exception.
- The two proportional rules and the hardness formula model Python's ZeroDivisionError and JavaScript's Infinity/NaN as an error or `None`. A non-finite number is not modelled further.
- The titration stream control (holding the button) is repeated `AddStream` calls.
- TitrationEngine.GetColorAtProgress: a practice whose `titration` key holds `None` is treated like one without the key, as having no breakpoints. The server code raises AttributeError there instead, because `.get("titration", {})` returns the `None`. The configuration records hold the section as an option, so they do not tell the two apart.
- TitrationStore.TitrationTracker.Valid: the invariant `volumeAdded <= maxBuretteVolume` is stated for capacities that are non-negative whole hundredths. For other capacities the rounding can exceed the cap.
- Assembly.AssemblyHook.constructor requires a non-zero capacity. The one caller passes `range[1] || 250`, which `AssemblyStage.StageCapacity` proves non-zero.
- ColorInterpolation.RgbToHsl requires channels in 0..255; the code only passes it the output of `hexToRgb`, which `HexToRgb` proves is in that range.
- SequentialAssembly.SequentialAssemblyHook.ExecuteStep models the corrected `executeStep`, which clears the earlier timeout first (see Findings). The code as written is `SequentialAssembly.AfterExecuteAsWritten`.
- SequentialAssembly.Step: models the corrected click (`AfterExecute`). The code as written, where a click overwrites a pending advance timeout, is `SequentialAssembly.StepAsWritten`/`RunAsWritten`, and its timer list can hold two advances.
- SequentialAssembly.ExecuteKeepsInv: proved for the corrected click only. With the click as written a second click on a pour step leaves two pending timeouts, so `|timers| <= 1` does not hold.
- SequentialAssembly.StepKeepsInv: proved for the corrected click only, for the same reason.
- SequentialAssembly.RunKeepsInv: proved for the corrected click only, for the same reason.
- SequentialAssembly.CompletedAtLastStep: proved for the corrected click only. As written, a stale advance still fires after a reset and completes the assembly (`StaleAdvanceAfterReset`).
- SequentialAssembly.StepNeverGoesBack: proved for the corrected click only. As written, two pending advances can both fire, each with the index it captured, so the proof does not carry over.
- SequentialAssembly.RunNeverGoesBack: proved for the corrected click only, for the same reason.
- MeasurementStage.UnitOf: states only that the unit is non-empty and is the configured one or `mL`; which of the two is chosen (a missing or empty unit gives `mL`) is the body itself.

## Findings

| source | as written | input that shows it | evidently intended | confidence | as-written member | corrected member |
|---|---|---|---|---|---|---|
| lab-simulator/frontend/src/hooks/useSequentialAssembly.js:122-148 | a pour step's click overwrites `animTimeout.current` with the new advance timeout without clearing an earlier one still pending, and `reset` clears only the newest | one pour step: click, last frame, click again within the 100 ms gap, reset, then the first advance timeout fires | `reset` silences every pending advance, so the reset assembly stays at index 0 and not completed | not executed | SequentialAssembly.StaleAdvanceAfterReset | SequentialAssembly.ClearedAdvanceAfterReset |

The S5 stage passes the drop count under the key `indicatorDrops` and never sets
`indicatorIntensity`. The lighten and darken branches of `initTitration` are therefore
unreachable from the interface (`ExecutionStage.StageModifiersKeepColours`). The model keeps
this as written: nothing shows what the authors intended instead.
