/**
 * The server's titration helpers (backend/services/titration_engine.py): the
 * rounded expected volume of a practice, and a plain-RGB colour lookup over
 * the practice's breakpoints whose channels are truncated by Python's int().
 * This lookup is deliberately a different interpolation from the browser's
 * HSL blend; the two are modelled separately. The practice registry is
 * passed in as its id -> config map.
 */
module TitrationEngine {
  import opened Base
  import opened Numbers
  import opened Hex
  import opened Breakpoints
  import opened Config
  import opened CalculationEngine

  /** The colour returned for an unknown practice or an empty breakpoint list. */
  const NoTransitionColor: string := "#F0F0F0"

  /** get_expected_volume: the calculator's volume rounded to four decimals. */
  function GetExpectedVolume(practices: map<int, Practice>, practiceId: int, measured: real,
                             sampleId: Option<string>): Result<real, PyError>
  {
    if practiceId !in practices then Err(PracticeNotFound(practiceId))
    else
      var p := practices[practiceId];
      if p.titration.None? then Err(NoTitrationConfig(practiceId))
      else
        match CalculateExpectedVolume(p, measured, sampleId)
        case Err(e) => Err(e)
        case Ok(volume) => Ok(PyRound4(volume))
  }

  /** Rounding to four decimals moves a value by at most half a ten-thousandth. */
  lemma PyRound4Close(x: real)
    ensures x - 0.00005 <= PyRound4(x) <= x + 0.00005
  {
    var n := RoundHalfEven(x * 10000.0);
    assert PyRound4(x) == n as real / 10000.0;
  }

  /**
   * get_expected_volume fails for an unknown practice, for a practice
   * without titration section, and wherever the calculator fails; otherwise
   * it returns the calculator's volume within half a ten-thousandth.
   */
  lemma GetExpectedVolumeOutcome(practices: map<int, Practice>, pid: int, measured: real, sampleId: Option<string>)
    ensures pid !in practices ==> GetExpectedVolume(practices, pid, measured, sampleId) == Err(PracticeNotFound(pid))
    ensures pid in practices && practices[pid].titration.None? ==>
      GetExpectedVolume(practices, pid, measured, sampleId) == Err(NoTitrationConfig(pid))
    ensures pid in practices && practices[pid].titration.Some? ==>
      (GetExpectedVolume(practices, pid, measured, sampleId).Ok?
       <==> CalculateExpectedVolume(practices[pid], measured, sampleId).Ok?)
    ensures GetExpectedVolume(practices, pid, measured, sampleId).Ok? ==>
      var v := CalculateExpectedVolume(practices[pid], measured, sampleId).value;
      v - 0.00005 <= GetExpectedVolume(practices, pid, measured, sampleId).value <= v + 0.00005
  {
    if pid in practices && practices[pid].titration.Some? && CalculateExpectedVolume(practices[pid], measured, sampleId).Ok? {
      PyRound4Close(CalculateExpectedVolume(practices[pid], measured, sampleId).value);
    }
  }

  // ---------------------------------------------------------------- _hex_to_rgb

  datatype RgbTuple = RgbTuple(r: int, g: int, b: int)

  /** str.lstrip("#"): every leading '#' removed. */
  function LStripHash(s: string): (t: string)
    ensures |t| <= |s| && t == s[|s| - |t|..]
    ensures forall i :: 0 <= i < |s| - |t| ==> s[i] == '#'
    ensures t == [] || t[0] != '#'
    decreases |s|
  {
    if s != [] && s[0] == '#' then LStripHash(s[1..]) else s
  }

  /** The slice s[i:i+2], cut short at the end of s as Python does. */
  function Pair(s: string, i: nat): (t: string)
    ensures |t| <= 2
  {
    var lo := if i <= |s| then i else |s|;
    var hi := if i + 2 <= |s| then i + 2 else |s|;
    s[lo..hi]
  }

  /** int(s[i:i+2], 16), raising ValueError on a rejected slice. */
  function ParsePair(s: string, i: nat): Result<int, PyError>
  {
    match PyParseHex(Pair(s, i))
    case None => Err(HexValueError(Pair(s, i)))
    case Some(v) => Ok(v)
  }

  /** _hex_to_rgb: the three pairs at offsets 0, 2 and 4 after the leading '#'s, the first rejected one raising. */
  function HexToRgbTuple(color: string): Result<RgbTuple, PyError>
  {
    PairsToRgb(LStripHash(color))
  }

  /** The pairs at offsets 0, 2 and 4, parsed in that order. */
  function PairsToRgb(h: string): Result<RgbTuple, PyError>
  {
    match ParsePair(h, 0)
    case Err(e) => Err(e)
    case Ok(r) =>
      match ParsePair(h, 2)
      case Err(e) => Err(e)
      case Ok(g) =>
        match ParsePair(h, 4)
        case Err(e) => Err(e)
        case Ok(b) => Ok(RgbTuple(r, g, b))
  }

  lemma ParseHexPair(s: string, i: nat)
    requires i + 2 <= |s| && IsHexDigit(s[i]) && IsHexDigit(s[i + 1])
    ensures ParsePair(s, i) == Ok(16 * DigitValue(s[i]) + DigitValue(s[i + 1]))
    ensures 0 <= 16 * DigitValue(s[i]) + DigitValue(s[i + 1]) < 256
  {
    assert Pair(s, i) == [s[i], s[i + 1]];
    HexValueOfPair(s[i], s[i + 1]);
  }

  /** Six hex digits, in either case, parse to the three pair values, each in 0..255. */
  lemma PairsToRgbOfTriplet(h: string)
    requires |h| >= 6 && IsHexDigit(h[0]) && IsHexDigit(h[1]) && IsHexDigit(h[2])
    requires IsHexDigit(h[3]) && IsHexDigit(h[4]) && IsHexDigit(h[5])
    ensures PairsToRgb(h) == Ok(RgbTuple(16 * DigitValue(h[0]) + DigitValue(h[1]),
                                         16 * DigitValue(h[2]) + DigitValue(h[3]),
                                         16 * DigitValue(h[4]) + DigitValue(h[5])))
    ensures TupleInGamut(PairsToRgb(h).value)
  {
    ParseHexPair(h, 0);
    ParseHexPair(h, 2);
    ParseHexPair(h, 4);
  }

  /** Any number of leading '#'s followed by six hex digits parses to the three pair values. */
  lemma HexToRgbTupleOfTriplet(color: string, h: string)
    requires LStripHash(color) == h
    requires |h| >= 6 && IsHexDigit(h[0]) && IsHexDigit(h[1]) && IsHexDigit(h[2])
    requires IsHexDigit(h[3]) && IsHexDigit(h[4]) && IsHexDigit(h[5])
    ensures HexToRgbTuple(color) == Ok(RgbTuple(16 * DigitValue(h[0]) + DigitValue(h[1]),
                                                16 * DigitValue(h[2]) + DigitValue(h[3]),
                                                16 * DigitValue(h[4]) + DigitValue(h[5])))
    ensures TupleInGamut(HexToRgbTuple(color).value)
  {
    PairsToRgbOfTriplet(h);
  }

  /** The configured colour form: '#' and six hex digits. */
  predicate IsHexColor(s: string)
  {
    |s| == 7 && s[0] == '#' && IsHexDigit(s[1]) && IsHexDigit(s[2]) && IsHexDigit(s[3])
    && IsHexDigit(s[4]) && IsHexDigit(s[5]) && IsHexDigit(s[6])
  }

  /** The channels a configured colour names: its three digit pairs read as base-16 numbers. */
  function ChannelsOf(s: string): (c: RgbTuple)
    requires IsHexColor(s)
    ensures TupleInGamut(c)
  {
    HexValueOfPair(s[1], s[2]);
    HexValueOfPair(s[3], s[4]);
    HexValueOfPair(s[5], s[6]);
    RgbTuple(16 * DigitValue(s[1]) + DigitValue(s[2]),
             16 * DigitValue(s[3]) + DigitValue(s[4]),
             16 * DigitValue(s[5]) + DigitValue(s[6]))
  }

  /** A configured colour parses to the channels it names. */
  lemma HexColorParses(s: string)
    requires IsHexColor(s)
    ensures HexToRgbTuple(s) == Ok(ChannelsOf(s))
  {
    var h := s[1..];
    assert h[0] == s[1] && h[1] == s[2] && h[2] == s[3] && h[3] == s[4] && h[4] == s[5] && h[5] == s[6];
    LStripHashOfHexColor(s);
    HexToRgbTupleOfTriplet(s, h);
  }

  lemma LStripHashOfHexColor(s: string)
    requires IsHexColor(s)
    ensures LStripHash(s) == s[1..]
  {
    assert LStripHash(s[1..]) == s[1..];
  }

  /** Only the first six characters after the '#'s are read: anything after them is ignored. */
  lemma HexToRgbTupleIgnoresTail(color: string, tail: string)
    requires |LStripHash(color)| >= 6
    ensures HexToRgbTuple(color + tail) == HexToRgbTuple(color)
  {
    LStripHashAppend(color, tail);
    PairsToRgbIgnoresTail(LStripHash(color), tail);
  }

  lemma PairsToRgbIgnoresTail(h: string, tail: string)
    requires |h| >= 6
    ensures PairsToRgb(h + tail) == PairsToRgb(h)
  {
    PairIgnoresTail(h, tail, 0);
    PairIgnoresTail(h, tail, 2);
    PairIgnoresTail(h, tail, 4);
  }

  lemma PairIgnoresTail(h: string, tail: string, i: nat)
    requires i + 2 <= |h|
    ensures ParsePair(h + tail, i) == ParsePair(h, i)
  {
    assert Pair(h + tail, i) == Pair(h, i);
  }

  lemma {:induction false} LStripHashAppend(s: string, tail: string)
    requires LStripHash(s) != []
    ensures LStripHash(s + tail) == LStripHash(s) + tail
    decreases |s|
  {
    if s != [] && s[0] == '#' {
      assert (s + tail)[0] == '#' && (s + tail)[1..] == s[1..] + tail;
      LStripHashAppend(s[1..], tail);
    } else {
      assert s != [];
      assert (s + tail)[0] == s[0];
    }
  }

  /** Four characters or fewer after the '#'s raise: the slice at offset 4 is empty. "#fff" is rejected. */
  lemma ShortColorRaises(color: string)
    requires |LStripHash(color)| <= 4
    ensures HexToRgbTuple(color).Err?
  {
    var h := LStripHash(color);
    assert Pair(h, 4) == [];
    PyParseHexEmpty();
  }

  predicate TupleInGamut(c: RgbTuple) { 0 <= c.r <= 255 && 0 <= c.g <= 255 && 0 <= c.b <= 255 }

  // ---------------------------------------------------------------- get_color_at_progress

  /** int(a + (b - a) * t): a channel blended in RGB and truncated toward zero. */
  function BlendChannel(a: int, b: int, t: real): int
  {
    Trunc(a as real + (b - a) as real * t)
  }

  /** f"#{r:02x}{g:02x}{b:02x}" */
  function FormatRgb(c: RgbTuple): string
  {
    "#" + PyFormat02x(c.r) + PyFormat02x(c.g) + PyFormat02x(c.b)
  }

  /** The two colours blended channel by channel at fraction t, printed as '#rrggbb'. */
  function BlendRgb(c1: RgbTuple, c2: RgbTuple, t: real): string
  {
    FormatRgb(RgbTuple(BlendChannel(c1.r, c2.r, t), BlendChannel(c1.g, c2.g, t), BlendChannel(c1.b, c2.b, t)))
  }

  /** The colour of the bracketing pair k at fraction t, or the error of a colour that does not parse. */
  function BlendPair(ts: seq<Breakpoint>, k: nat, t: real): Result<string, PyError>
    requires k + 1 < |ts|
  {
    match HexToRgbTuple(ts[k].color)
    case Err(e) => Err(e)
    case Ok(c1) =>
      match HexToRgbTuple(ts[k + 1].color)
      case Err(e) => Err(e)
      case Ok(c2) => Ok(BlendRgb(c1, c2, t))
  }

  /** The practice's breakpoints; a missing titration section counts as none. */
  function TransitionsOf(p: Practice): seq<Breakpoint>
  {
    if p.titration.Some? then p.titration.value.colorTransitions else []
  }

  /** get_color_at_progress over the registry's map. */
  function GetColorAtProgress(practices: map<int, Practice>, practiceId: int, progress: real): Result<string, PyError>
  {
    if practiceId !in practices then Ok(NoTransitionColor)
    else ColorAt(TransitionsOf(practices[practiceId]), progress)
  }

  /** The lookup once the practice's breakpoints are in hand. */
  function ColorAt(ts: seq<Breakpoint>, progress: real): Result<string, PyError>
  {
    if |ts| == 0 then Ok(NoTransitionColor)
    else if progress <= ts[0].progress then Ok(ts[0].color)
    else if progress >= ts[|ts| - 1].progress then Ok(ts[|ts| - 1].color)
    else match FirstBracket(ts, progress, 0)
      case Some(k) => BlendPair(ts, k, BracketFraction(ts, progress, k))
      case None => Ok(ts[|ts| - 1].color)
  }

  /** The early returns: an unknown practice or no breakpoints give '#F0F0F0'; the ends give their colour strings unchanged. */
  lemma GetColorAtProgressEnds(practices: map<int, Practice>, pid: int, p: real)
    ensures pid !in practices ==> GetColorAtProgress(practices, pid, p) == Ok(NoTransitionColor)
    ensures pid in practices && TransitionsOf(practices[pid]) == [] ==> GetColorAtProgress(practices, pid, p) == Ok(NoTransitionColor)
    ensures pid in practices && TransitionsOf(practices[pid]) != [] && p <= TransitionsOf(practices[pid])[0].progress ==>
      GetColorAtProgress(practices, pid, p) == Ok(TransitionsOf(practices[pid])[0].color)
    ensures pid in practices && TransitionsOf(practices[pid]) != [] ==>
      var ts := TransitionsOf(practices[pid]);
      ts[0].progress < p && ts[|ts| - 1].progress <= p ==> GetColorAtProgress(practices, pid, p) == Ok(ts[|ts| - 1].color)
  {
  }

  /** Blending two channels of 0..255 with t in [0, 1] and truncating stays between them. */
  lemma BlendChannelBetween(a: int, b: int, t: real)
    requires 0 <= a <= 255 && 0 <= b <= 255 && 0.0 <= t <= 1.0
    ensures (a <= BlendChannel(a, b, t) <= b) || (b <= BlendChannel(a, b, t) <= a)
    ensures t == 1.0 ==> BlendChannel(a, b, t) == b
  {
    var x := a as real + (b - a) as real * t;
    LerpBetween(a as real, b as real, t);
    assert x >= 0.0;
    assert BlendChannel(a, b, t) == x.Floor;
  }

  /** Three channels of 0..255 print as '#' and six lower-case hex digits. */
  lemma FormatRgbShape(c: RgbTuple)
    requires TupleInGamut(c)
    ensures |FormatRgb(c)| == 7 && FormatRgb(c)[0] == '#' && AllLowerHex(FormatRgb(c)[1..])
  {
    var s := FormatRgb(c);
    var h1, h2, h3 := Hex2(c.r), Hex2(c.g), Hex2(c.b);
    assert s == "#" + h1 + h2 + h3;
    assert s[1..] == h1 + h2 + h3;
    forall i | 0 <= i < 6 ensures IsLowerHexDigit(s[1..][i]) {
      if i < 2 { assert s[1..][i] == h1[i]; }
      else if i < 4 { assert s[1..][i] == h2[i - 2]; }
      else { assert s[1..][i] == h3[i - 4]; }
    }
  }

  /** Each channel of c lies in 0..255 and between the matching channels of c1 and c2. */
  predicate BlendedBetween(c: RgbTuple, c1: RgbTuple, c2: RgbTuple)
  {
    TupleInGamut(c)
    && ((c1.r <= c.r <= c2.r) || (c2.r <= c.r <= c1.r))
    && ((c1.g <= c.g <= c2.g) || (c2.g <= c.g <= c1.g))
    && ((c1.b <= c.b <= c2.b) || (c2.b <= c.b <= c1.b))
  }

  lemma BlendRgbInGamut(c1: RgbTuple, c2: RgbTuple, t: real)
    requires TupleInGamut(c1) && TupleInGamut(c2) && 0.0 <= t <= 1.0
    ensures var s := BlendRgb(c1, c2, t); |s| == 7 && s[0] == '#' && AllLowerHex(s[1..])
    ensures exists c :: BlendRgb(c1, c2, t) == FormatRgb(c) && BlendedBetween(c, c1, c2)
  {
    BlendChannelBetween(c1.r, c2.r, t);
    BlendChannelBetween(c1.g, c2.g, t);
    BlendChannelBetween(c1.b, c2.b, t);
    var c := RgbTuple(BlendChannel(c1.r, c2.r, t), BlendChannel(c1.g, c2.g, t), BlendChannel(c1.b, c2.b, t));
    assert BlendedBetween(c, c1, c2);
    FormatRgbShape(c);
  }

  /** Every breakpoint colour has the configured form. */
  predicate AllHexColors(ts: seq<Breakpoint>)
  {
    forall i :: 0 <= i < |ts| ==> IsHexColor(ts[i].color)
  }

  /** Two configured colours always parse, so their blend succeeds. */
  lemma BlendPairOfHexColors(ts: seq<Breakpoint>, k: nat, t: real)
    requires k + 1 < |ts| && IsHexColor(ts[k].color) && IsHexColor(ts[k + 1].color)
    ensures BlendPair(ts, k, t) == Ok(BlendRgb(ChannelsOf(ts[k].color), ChannelsOf(ts[k + 1].color), t))
  {
    HexColorParses(ts[k].color);
    HexColorParses(ts[k + 1].color);
  }

  /**
   * Strictly inside the breakpoints' range, when every colour is '#' and
   * six hex digits, the lookup blends the first bracketing pair: it
   * succeeds with each channel between that pair's channels, printed as '#'
   * and six lower-case hex digits.
   */
  lemma ColorAtInterior(ts: seq<Breakpoint>, p: real)
    requires |ts| > 0 && ts[0].progress < p < ts[|ts| - 1].progress
    requires AllHexColors(ts)
    ensures FirstBracket(ts, p, 0).Some?
    ensures var k := FirstBracket(ts, p, 0).value;
      var r := ColorAt(ts, p);
      r.Ok? && |r.value| == 7 && r.value[0] == '#' && AllLowerHex(r.value[1..])
      && exists c :: (r.value == FormatRgb(c) && BlendedBetween(c, ChannelsOf(ts[k].color), ChannelsOf(ts[k + 1].color)))
  {
    var k := FirstBracket(ts, p, 0).value;
    var t := BracketFraction(ts, p, k);
    BlendPairOfHexColors(ts, k, t);
    var r := ColorAt(ts, p);
    assert r == BlendPair(ts, k, t);
    BlendRgbInGamut(ChannelsOf(ts[k].color), ChannelsOf(ts[k + 1].color), t);
  }

  /** The same for a registered practice. */
  lemma GetColorAtProgressInterior(practices: map<int, Practice>, pid: int, p: real)
    requires pid in practices
    requires var ts := TransitionsOf(practices[pid]); |ts| > 0 && ts[0].progress < p < ts[|ts| - 1].progress
    requires AllHexColors(TransitionsOf(practices[pid]))
    ensures var r := GetColorAtProgress(practices, pid, p);
      r.Ok? && |r.value| == 7 && r.value[0] == '#' && AllLowerHex(r.value[1..])
  {
    ColorAtInterior(TransitionsOf(practices[pid]), p);
  }
}
