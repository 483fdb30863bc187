/**
 * The browser's colour engine (frontend/src/utils/colorInterpolation.js):
 * "#rrggbb" parsing and printing, RGB/HSL conversion, blending along the
 * shorter hue arc, piecewise lookup over breakpoints, and the three
 * breakpoint-list modifiers used by the titration store.
 */
module ColorInterpolation {
  import opened Base
  import opened Numbers
  import opened Hex
  import opened Breakpoints

  /** Channel values as hexToRgb and hslToRgb return them. */
  datatype Rgb = Rgb(r: int, g: int, b: int)

  /** Hue in degrees, saturation and lightness in percent. */
  datatype Hsl = Hsl(h: real, s: real, l: real)

  predicate InGamut(c: Rgb) { 0 <= c.r <= 255 && 0 <= c.g <= 255 && 0 <= c.b <= 255 }

  /** Colour of an empty breakpoint list. */
  const NoTransitionColor: string := "#F0F0F0"

  // ---------------------------------------------------------------- hex text

  predicate IsHexTriplet(d: string) { |d| == 6 && AllHex(d) }

  /** The pattern /^#?([a-f\d]{2})([a-f\d]{2})([a-f\d]{2})$/i. */
  predicate MatchesHexPattern(s: string)
  {
    IsHexTriplet(s) || (|s| == 7 && s[0] == '#' && IsHexTriplet(s[1..]))
  }

  /** "#" followed by six lower-case hex digits: what rgbToHex prints. */
  predicate IsCanonicalHex(s: string)
  {
    |s| == 7 && s[0] == '#' && AllLowerHex(s[1..])
  }

  function PairValue(d: string, i: nat): (v: nat)
    requires IsHexTriplet(d) && i <= 4
    ensures v < 256
  {
    16 * DigitValue(d[i]) + DigitValue(d[i + 1])
  }

  /**
   * hexToRgb: an optional '#' and exactly six hex digits in either case give
   * the three pairs' values; any other string gives black.
   */
  function HexToRgb(s: string): (c: Rgb)
    ensures InGamut(c)
    ensures !MatchesHexPattern(s) ==> c == Rgb(0, 0, 0)
    ensures MatchesHexPattern(s) ==>
      var d := if |s| == 7 then s[1..] else s;
      c == Rgb(PairValue(d, 0), PairValue(d, 2), PairValue(d, 4))
  {
    var d := if |s| == 7 && s[0] == '#' then s[1..] else s;
    if IsHexTriplet(d) then Rgb(PairValue(d, 0), PairValue(d, 2), PairValue(d, 4))
    else Rgb(0, 0, 0)
  }

  /** One channel of rgbToHex: clamped into [0, 255], rounded, two hex digits. */
  function ChannelHex(x: real): (s: string)
    ensures |s| == 2 && AllLowerHex(s)
  {
    Hex2(JsRound(Clamp255(x)))
  }

  function Clamp255(x: real): (y: real)
    ensures 0.0 <= y <= 255.0
    ensures 0.0 <= x <= 255.0 ==> y == x
  {
    Max(0.0, Min(255.0, x))
  }

  /** rgbToHex */
  function RgbToHex(r: real, g: real, b: real): (s: string)
    ensures IsCanonicalHex(s)
  {
    "#" + ChannelHex(r) + ChannelHex(g) + ChannelHex(b)
  }

  /** A channel printed by rgbToHex reads back as the integer it was given. */
  lemma ChannelRoundTrip(n: int)
    requires 0 <= n <= 255
    ensures var s := ChannelHex(n as real); IsHexDigit(s[0]) && IsHexDigit(s[1]) && 16 * DigitValue(s[0]) + DigitValue(s[1]) == n
  {
    assert JsRound(n as real) == n;
  }

  /** hexToRgb(rgbToHex(r, g, b)) gives (r, g, b) back for every in-gamut integer colour. */
  lemma HexRoundTrip(c: Rgb)
    requires InGamut(c)
    ensures HexToRgb(RgbToHex(c.r as real, c.g as real, c.b as real)) == c
  {
    var s := RgbToHex(c.r as real, c.g as real, c.b as real);
    var d := s[1..];
    ChannelRoundTrip(c.r);
    ChannelRoundTrip(c.g);
    ChannelRoundTrip(c.b);
    assert d == ChannelHex(c.r as real) + ChannelHex(c.g as real) + ChannelHex(c.b as real);
    assert IsHexTriplet(d);
    assert PairValue(d, 0) == c.r;
    assert PairValue(d, 2) == c.g;
    assert PairValue(d, 4) == c.b;
  }

  /** rgbToHex of any three numbers is itself accepted by hexToRgb. */
  lemma PrintedHexIsAccepted(r: real, g: real, b: real)
    ensures MatchesHexPattern(RgbToHex(r, g, b))
  {
    var s := RgbToHex(r, g, b);
    assert IsHexTriplet(s[1..]);
  }

  /** ASCII lower-casing, which the pattern's i flag makes irrelevant. */
  function LowerChar(c: char): char
  {
    if 'A' <= c <= 'Z' then (c as int - 'A' as int + 'a' as int) as char else c
  }

  /**
   * Lower-casing as the pattern's i flag sees it: hex digits stay hex digits,
   * now lower-case and with the same value; other characters stay non-digits,
   * and '#' stays '#'.
   */
  function LowerCase(s: string): (t: string)
    ensures |t| == |s|
    ensures forall i :: 0 <= i < |s| ==> (IsHexDigit(s[i]) <==> IsHexDigit(t[i]))
    ensures forall i :: 0 <= i < |s| && IsHexDigit(s[i]) ==>
      IsLowerHexDigit(t[i]) && DigitValue(t[i]) == DigitValue(s[i])
    ensures forall i :: 0 <= i < |s| ==> (s[i] == '#' <==> t[i] == '#')
  {
    var t := seq(|s|, i requires 0 <= i < |s| => LowerChar(s[i]));
    assert forall i :: 0 <= i < |s| ==> t[i] == LowerChar(s[i]);
    t
  }

  lemma LowerCharDigit(c: char)
    ensures IsHexDigit(c) <==> IsHexDigit(LowerChar(c))
    ensures IsHexDigit(c) ==> IsLowerHexDigit(LowerChar(c)) && DigitValue(LowerChar(c)) == DigitValue(c)
  {
  }

  /** The i flag: hexToRgb does not distinguish upper from lower case. */
  lemma HexToRgbIgnoresCase(s: string)
    ensures HexToRgb(LowerCase(s)) == HexToRgb(s)
  {
    var t := LowerCase(s);
    forall i | 0 <= i < |s|
      ensures IsHexDigit(s[i]) <==> IsHexDigit(t[i])
      ensures IsHexDigit(s[i]) ==> DigitValue(t[i]) == DigitValue(s[i])
    {
      LowerCharDigit(s[i]);
    }
    if |s| == 7 {
      assert t[0] == '#' <==> s[0] == '#';
      assert t[1..] == LowerCase(s[1..]);
    }
  }

  // ---------------------------------------------------------------- RGB/HSL

  function Max3(a: real, b: real, c: real): real { Max(Max(a, b), c) }

  function Min3(a: real, b: real, c: real): real { Min(Min(a, b), c) }

  /** Channels as fractions of 255. */
  predicate UnitChannels(r: real, g: real, b: real)
  {
    0.0 <= r <= 1.0 && 0.0 <= g <= 1.0 && 0.0 <= b <= 1.0
  }

  /**
   * rgbToHsl. The source divides by max + min or 2 - max - min, so it is
   * only defined on in-gamut channels; its only callers pass hexToRgb output.
   */
  function RgbToHsl(c: Rgb): Hsl
    requires InGamut(c)
  {
    var r, g, b := c.r as real / 255.0, c.g as real / 255.0, c.b as real / 255.0;
    var mx, mn := Max3(r, g, b), Min3(r, g, b);
    var l := (mx + mn) / 2.0;
    if mx == mn then Hsl(0.0, 0.0, l * 100.0)
    else Hsl(HueFraction(r, g, b) * 360.0, Saturation(mx, mn) * 100.0, l * 100.0)
  }

  /** The hue as a fraction of a turn, from the channel that is largest. */
  function HueFraction(r: real, g: real, b: real): real
    requires Max3(r, g, b) != Min3(r, g, b)
  {
    var mx, mn := Max3(r, g, b), Min3(r, g, b);
    var d := mx - mn;
    if mx == r then ((g - b) / d + (if g < b then 6.0 else 0.0)) / 6.0
    else if mx == g then ((b - r) / d + 2.0) / 6.0
    else ((r - g) / d + 4.0) / 6.0
  }

  /** The saturation as a fraction, relative to the lighter or the darker half. */
  function Saturation(mx: real, mn: real): real
    requires 0.0 <= mn < mx <= 1.0
  {
    var d := mx - mn;
    if (mx + mn) / 2.0 > 0.5 then d / (2.0 - mx - mn) else d / (mx + mn)
  }

  predicate HslInRange(c: Hsl)
  {
    0.0 <= c.h < 360.0 && 0.0 <= c.s <= 100.0 && 0.0 <= c.l <= 100.0
  }

  lemma QuotientInSignedUnit(a: real, b: real)
    requires -b <= a <= b && 0.0 < b
    ensures -1.0 <= a / b <= 1.0
  {
  }

  lemma MaxMinBounds(r: real, g: real, b: real)
    requires UnitChannels(r, g, b)
    ensures 0.0 <= Min3(r, g, b) <= Max3(r, g, b) <= 1.0
    ensures Min3(r, g, b) <= r <= Max3(r, g, b) && Min3(r, g, b) <= g <= Max3(r, g, b) && Min3(r, g, b) <= b <= Max3(r, g, b)
    ensures Max3(r, g, b) == r || Max3(r, g, b) == g || Max3(r, g, b) == b
  {
  }

  /** The hue fraction of distinct unit channels lies in [0, 1). */
  lemma HueFractionInUnit(r: real, g: real, b: real)
    requires UnitChannels(r, g, b) && Max3(r, g, b) != Min3(r, g, b)
    ensures 0.0 <= HueFraction(r, g, b) < 1.0
  {
    var mx, mn := Max3(r, g, b), Min3(r, g, b);
    MaxMinBounds(r, g, b);
    var d := mx - mn;
    if mx == r {
      QuotientInSignedUnit(g - b, d);
      RedSectorInUnit(g - b, d);
    } else if mx == g {
      QuotientInSignedUnit(b - r, d);
    } else {
      QuotientInSignedUnit(r - g, d);
    }
  }

  /** The hue of a red-dominant colour: a negative quotient is moved up by a full turn. */
  lemma RedSectorInUnit(a: real, d: real)
    requires 0.0 < d && -1.0 <= a / d <= 1.0
    ensures 0.0 <= (a / d + (if a < 0.0 then 6.0 else 0.0)) / 6.0 < 1.0
  {
    if a < 0.0 {
      assert a / d < 0.0;
    } else {
      assert a / d >= 0.0;
    }
  }

  lemma SaturationInUnit(mx: real, mn: real)
    requires 0.0 <= mn < mx <= 1.0
    ensures 0.0 <= Saturation(mx, mn) <= 1.0
  {
    if (mx + mn) / 2.0 > 0.5 {
      QuotientInUnit(mx - mn, 2.0 - mx - mn);
    } else {
      QuotientInUnit(mx - mn, mx + mn);
    }
  }

  /** rgbToHsl yields a hue in [0, 360) and saturation and lightness in [0, 100]. */
  lemma RgbToHslInRange(c: Rgb)
    requires InGamut(c)
    ensures HslInRange(RgbToHsl(c))
  {
    var r, g, b := c.r as real / 255.0, c.g as real / 255.0, c.b as real / 255.0;
    assert UnitChannels(r, g, b);
    MaxMinBounds(r, g, b);
    var mx, mn := Max3(r, g, b), Min3(r, g, b);
    if mx != mn {
      HueFractionInUnit(r, g, b);
      SaturationInUnit(mx, mn);
    }
  }

  /** A grey (all channels equal) has hue 0 and saturation 0. */
  lemma GreyHasNoHue(c: Rgb)
    requires InGamut(c) && c.r == c.g == c.b
    ensures RgbToHsl(c).h == 0.0 && RgbToHsl(c).s == 0.0
  {
  }

  /** The hue fraction folded back by one turn when it leaves [0, 1]. */
  function WrapUnit(t0: real): (t: real)
    ensures -1.0 <= t0 <= 2.0 ==> 0.0 <= t <= 1.0
  {
    var t1 := if t0 < 0.0 then t0 + 1.0 else t0;
    if t1 > 1.0 then t1 - 1.0 else t1
  }

  /** The point a fraction f of the way from p to q. */
  function Mix(p: real, q: real, f: real): real
  {
    p + (q - p) * f
  }

  lemma MixBetween(p: real, q: real, f: real)
    requires p <= q && 0.0 <= f <= 1.0
    ensures p <= Mix(p, q, f) <= q
  {
    ProductNonNegative(q - p, f);
    ProductAtMost(q - p, f);
  }

  /** hue2rgb of the CSS Color Module Level 3 algorithm (section 4.2.4). */
  function Hue2Rgb(p: real, q: real, t0: real): real
  {
    var t := WrapUnit(t0);
    if t < 1.0 / 6.0 then Mix(p, q, 6.0 * t)
    else if t < 1.0 / 2.0 then q
    else if t < 2.0 / 3.0 then Mix(p, q, (2.0 / 3.0 - t) * 6.0)
    else p
  }

  /** hslToRgb */
  function HslToRgb(c: Hsl): Rgb
  {
    var h, s, l := c.h / 360.0, c.s / 100.0, c.l / 100.0;
    if s == 0.0 then
      var v := JsRound(l * 255.0);
      Rgb(v, v, v)
    else
      var q := HslQ(l, s);
      var p := 2.0 * l - q;
      Rgb(JsRound(Hue2Rgb(p, q, h + 1.0 / 3.0) * 255.0),
          JsRound(Hue2Rgb(p, q, h) * 255.0),
          JsRound(Hue2Rgb(p, q, h - 1.0 / 3.0) * 255.0))
  }

  /** Zero saturation converts to a grey. */
  lemma HslToRgbGrey(c: Hsl)
    requires c.s == 0.0
    ensures HslToRgb(c).r == HslToRgb(c).g == HslToRgb(c).b
  {
  }

  lemma Hue2RgbRising(p: real, q: real, t0: real)
    requires 0.0 <= p <= q && -1.0 <= t0 <= 2.0 && WrapUnit(t0) < 1.0 / 6.0
    ensures p <= Hue2Rgb(p, q, t0)
    ensures Hue2Rgb(p, q, t0) <= q
  {
    MixBetween(p, q, 6.0 * WrapUnit(t0));
  }

  lemma Hue2RgbFalling(p: real, q: real, t0: real)
    requires 0.0 <= p <= q && 1.0 / 2.0 <= WrapUnit(t0) < 2.0 / 3.0
    ensures p <= Hue2Rgb(p, q, t0)
    ensures Hue2Rgb(p, q, t0) <= q
  {
    MixBetween(p, q, (2.0 / 3.0 - WrapUnit(t0)) * 6.0);
  }

  /** hue2rgb of a hue fraction within one turn of [0, 1] lies between p and q. */
  lemma Hue2RgbBetween(p: real, q: real, t0: real)
    requires 0.0 <= p <= q <= 1.0 && -1.0 <= t0 <= 2.0
    ensures p <= Hue2Rgb(p, q, t0)
    ensures Hue2Rgb(p, q, t0) <= q
  {
    var t := WrapUnit(t0);
    if t < 1.0 / 6.0 {
      Hue2RgbRising(p, q, t0);
    } else if t < 1.0 / 2.0 {
      assert Hue2Rgb(p, q, t0) == q;
    } else if t < 2.0 / 3.0 {
      Hue2RgbFalling(p, q, t0);
    } else {
      assert Hue2Rgb(p, q, t0) == p;
    }
  }

  /** The q of hslToRgb, for lightness and saturation as fractions. */
  function HslQ(l: real, s: real): real
  {
    if l < 0.5 then l * (1.0 + s) else l + s - l * s
  }

  /** For fractions in [0, 1], l <= q <= min(1, 2l), so p = 2l - q lies in [0, q]. */
  lemma HslQBounds(l: real, s: real)
    requires 0.0 <= l <= 1.0 && 0.0 <= s <= 1.0
    ensures l <= HslQ(l, s)
    ensures HslQ(l, s) <= 1.0
    ensures HslQ(l, s) <= 2.0 * l
  {
    if l < 0.5 {
      assert HslQ(l, s) == l + (2.0 * l - l) * s;
      StepBetween(l, 2.0 * l, s);
    } else {
      assert HslQ(l, s) == l + (1.0 - l) * s;
      StepBetween(l, 1.0, s);
    }
  }

  lemma RoundedUnitInByte(x: real)
    requires 0.0 <= x <= 1.0
    ensures 0 <= JsRound(x * 255.0) <= 255
  {
  }

  /** In-range HSL converts to in-gamut RGB: rgbToHex's clamp never has to act on hslToRgb output. */
  lemma HslToRgbInGamut(c: Hsl)
    requires HslInRange(c)
    ensures InGamut(HslToRgb(c))
  {
    var h, s, l := c.h / 360.0, c.s / 100.0, c.l / 100.0;
    if s == 0.0 {
      RoundedUnitInByte(l);
    } else {
      var q := HslQ(l, s);
      var p := 2.0 * l - q;
      HslQBounds(l, s);
      Hue2RgbBetween(p, q, h + 1.0 / 3.0);
      Hue2RgbBetween(p, q, h);
      Hue2RgbBetween(p, q, h - 1.0 / 3.0);
      RoundedUnitInByte(Hue2Rgb(p, q, h + 1.0 / 3.0));
      RoundedUnitInByte(Hue2Rgb(p, q, h));
      RoundedUnitInByte(Hue2Rgb(p, q, h - 1.0 / 3.0));
    }
  }

  // ---------------------------------------------------------------- blending

  /** The hue step of interpolateColorHSL: h2 - h1 folded into [-180, 180]. */
  function ShortestHueDelta(h1: real, h2: real): real
  {
    var dh := h2 - h1;
    var dh1 := if dh > 180.0 then dh - 360.0 else dh;
    if dh1 < -180.0 then dh1 + 360.0 else dh1
  }

  /** For hues in [0, 360) the step is the shorter arc: at most 180 degrees and equal to h2 - h1 modulo 360. */
  lemma ShortestHueDeltaIsShorterArc(h1: real, h2: real)
    requires 0.0 <= h1 < 360.0 && 0.0 <= h2 < 360.0
    ensures -180.0 <= ShortestHueDelta(h1, h2) <= 180.0
    ensures ShortestHueDelta(h1, h2) - (h2 - h1) in {-360.0, 0.0, 360.0}
  {
  }

  /** An angle that is a whole number of full turns. */
  predicate WholeTurns(d: real)
  {
    (d / 360.0).Floor as real == d / 360.0
  }

  /** ((h % 360) + 360) % 360 with JavaScript's truncating %. */
  function NormalizeHue(h: real): real
  {
    JsRem(JsRem(h, 360.0) + 360.0, 360.0)
  }

  /** JavaScript's x % 360 lies strictly within one turn of 0 and differs from x by whole turns. */
  lemma JsRemTurn(x: real)
    ensures -360.0 < JsRem(x, 360.0) < 360.0
    ensures JsRem(x, 360.0) == x - 360.0 * Trunc(x / 360.0) as real
  {
    var q := Trunc(x / 360.0);
    assert Abs(q as real) <= Abs(x / 360.0) < Abs(q as real) + 1.0;
    assert x == 360.0 * (x / 360.0);
  }

  /** For x in (0, 720), x % 360 is x less the whole turns below it, and lies in [0, 360). */
  lemma JsRemPositiveTurn(x: real)
    requires 0.0 < x < 720.0
    ensures 0.0 <= JsRem(x, 360.0) < 360.0
  {
    var q := Trunc(x / 360.0);
    assert q == (x / 360.0).Floor;
    assert q as real <= x / 360.0 < q as real + 1.0;
    assert x == 360.0 * (x / 360.0);
  }

  /** The normalised hue lies in [0, 360) and differs from h by a whole number of turns. */
  lemma NormalizeHueInRange(h: real)
    ensures 0.0 <= NormalizeHue(h) < 360.0
    ensures WholeTurns(NormalizeHue(h) - h)
  {
    var q1 := Trunc(h / 360.0);
    var a := JsRem(h, 360.0);
    JsRemTurn(h);
    var x := a + 360.0;
    JsRemTurn(x);
    JsRemPositiveTurn(x);
    var q2 := Trunc(x / 360.0);
    var k := 1 - q1 - q2;
    assert NormalizeHue(h) - h == 360.0 * k as real;
    assert (NormalizeHue(h) - h) / 360.0 == k as real;
  }

  /** interpolateColorHSL: blend two "#rrggbb" colours in HSL along the shorter hue arc. */
  function InterpolateColorHSL(color1: string, color2: string, t: real): (s: string)
    ensures IsCanonicalHex(s)
  {
    var rgb := HslToRgb(BlendHsl(RgbToHsl(HexToRgb(color1)), RgbToHsl(HexToRgb(color2)), t));
    RgbToHex(rgb.r as real, rgb.g as real, rgb.b as real)
  }

  /** The HSL blend inside interpolateColorHSL: hue along the shorter arc, then normalised. */
  function BlendHsl(c1: Hsl, c2: Hsl, t: real): Hsl
  {
    var h := c1.h + ShortestHueDelta(c1.h, c2.h) * t;
    Hsl(NormalizeHue(h), c1.s + (c2.s - c1.s) * t, c1.l + (c2.l - c1.l) * t)
  }

  /** For t in [0, 1] the blended saturation and lightness stay between the two colours' own. */
  lemma BlendHslBetween(c1: Hsl, c2: Hsl, t: real)
    requires 0.0 <= t <= 1.0
    ensures Between(BlendHsl(c1, c2, t).s, c1.s, c2.s)
    ensures Between(BlendHsl(c1, c2, t).l, c1.l, c2.l)
  {
    var b := BlendHsl(c1, c2, t);
    assert b.s == c1.s + (c2.s - c1.s) * t;
    assert b.l == c1.l + (c2.l - c1.l) * t;
    LerpBetween(c1.s, c2.s, t);
    LerpBetween(c1.l, c2.l, t);
  }

  /** For t in [0, 1] the blend of two in-range colours is in range. */
  lemma BlendHslInRange(c1: Hsl, c2: Hsl, t: real)
    requires HslInRange(c1) && HslInRange(c2) && 0.0 <= t <= 1.0
    ensures HslInRange(BlendHsl(c1, c2, t))
  {
    var b := BlendHsl(c1, c2, t);
    NormalizeHueInRange(c1.h + ShortestHueDelta(c1.h, c2.h) * t);
    assert 0.0 <= b.h < 360.0;
    BlendHslBetween(c1, c2, t);
  }

  /** The blend at t = 0 is the first colour's HSL. */
  lemma BlendHslAtZero(c1: Hsl, c2: Hsl)
    requires HslInRange(c1)
    ensures BlendHsl(c1, c2, 0.0) == c1
  {
    NormalizeHueInRange(c1.h);
    var n := NormalizeHue(c1.h);
    assert (n - c1.h) / 360.0 == 0.0 by {
      assert -1.0 < (n - c1.h) / 360.0 < 1.0;
    }
  }

  /** Interpolating two colours whatever their strings gives an in-gamut RGB before printing. */
  lemma InterpolationStaysInGamut(color1: string, color2: string, t: real)
    requires 0.0 <= t <= 1.0
    ensures InGamut(HslToRgb(BlendHsl(RgbToHsl(HexToRgb(color1)), RgbToHsl(HexToRgb(color2)), t)))
  {
    var c1 := RgbToHsl(HexToRgb(color1));
    var c2 := RgbToHsl(HexToRgb(color2));
    RgbToHslInRange(HexToRgb(color1));
    RgbToHslInRange(HexToRgb(color2));
    BlendHslInRange(c1, c2, t);
    HslToRgbInGamut(BlendHsl(c1, c2, t));
  }

  // ---------------------------------------------------------------- lookup

  /**
   * getColorAtProgress: the list's colour at a progress value. An empty list
   * gives "#F0F0F0"; at or below the first breakpoint, and at or above the
   * last, the endpoint's own colour string is returned unchanged; otherwise
   * the first bracketing pair is blended in HSL.
   */
  function GetColorAtProgress(ts: seq<Breakpoint>, p: real): string
  {
    if |ts| == 0 then NoTransitionColor
    else if p <= ts[0].progress then ts[0].color
    else if p >= ts[|ts| - 1].progress then ts[|ts| - 1].color
    else match FirstBracket(ts, p, 0)
      case Some(k) => InterpolateColorHSL(ts[k].color, ts[k + 1].color, BracketFraction(ts, p, k))
      case None => ts[|ts| - 1].color
  }

  /** The three early returns of getColorAtProgress. */
  lemma GetColorAtProgressEnds(ts: seq<Breakpoint>, p: real)
    ensures |ts| == 0 ==> GetColorAtProgress(ts, p) == NoTransitionColor
    ensures |ts| > 0 && p <= ts[0].progress ==> GetColorAtProgress(ts, p) == ts[0].color
    ensures |ts| > 0 && p >= ts[|ts| - 1].progress && p > ts[0].progress ==>
      GetColorAtProgress(ts, p) == ts[|ts| - 1].color
  {
  }

  /**
   * Strictly inside the list's range the loop always finds a pair (the final
   * fallback return is unreachable), the pair is the first one that brackets
   * p, and the blend parameter lies in (0, 1].
   */
  lemma GetColorAtProgressInterior(ts: seq<Breakpoint>, p: real)
    requires |ts| > 0 && ts[0].progress < p < ts[|ts| - 1].progress
    ensures FirstBracket(ts, p, 0).Some?
    ensures var k := FirstBracket(ts, p, 0).value;
      k < |ts| - 1 && ts[k].progress < p <= ts[k + 1].progress
      && (forall j :: 0 <= j < k ==> !Brackets(ts, j, p))
      && GetColorAtProgress(ts, p) == InterpolateColorHSL(ts[k].color, ts[k + 1].color, BracketFraction(ts, p, k))
      && 0.0 < BracketFraction(ts, p, k) <= 1.0
  {
  }

  /** In a list sorted by progress the bracket found starts at the last breakpoint below p. */
  lemma SortedBracketIsLastBelow(ts: seq<Breakpoint>, p: real)
    requires |ts| > 0 && ts[0].progress < p < ts[|ts| - 1].progress && SortedByProgress(ts)
    ensures FirstBracket(ts, p, 0).Some?
    ensures var k := FirstBracket(ts, p, 0).value;
      forall j :: k < j < |ts| ==> p <= ts[j].progress
  {
  }

  // ---------------------------------------------------------------- modifiers

  /** The progress remap of stretchTransitionsNearEndpoint: [0.85, 1.0] onto [0.70, 1.15], then 3 decimals. */
  function StretchProgress(p: real): real
  {
    var q := if 0.85 <= p <= 1.0 then 0.70 + ((p - 0.85) / 0.15) * 0.45 else p;
    Round3(q)
  }

  /** stretchTransitionsNearEndpoint */
  function StretchTransitionsNearEndpoint(ts: seq<Breakpoint>): (r: seq<Breakpoint>)
    ensures |r| == |ts|
    ensures forall i :: 0 <= i < |ts| ==> r[i].color == ts[i].color
  {
    seq(|ts|, i requires 0 <= i < |ts| => ts[i].(progress := StretchProgress(ts[i].progress)))
  }

  /** The window's ends go to 0.70 and 1.15. */
  lemma StretchWindowEnds()
    ensures StretchProgress(0.85) == 0.70 && StretchProgress(1.0) == 1.15
  {
    assert JsRound(700.0) == 700;
    assert JsRound(1150.0) == 1150;
  }

  /** Every stretched progress has three decimals; window points land in [0.70, 1.15]. */
  lemma StretchProgressRange(p: real)
    ensures WholeThousandths(StretchProgress(p))
    ensures 0.85 <= p <= 1.0 ==> 0.70 <= StretchProgress(p) <= 1.15
  {
    var q := if 0.85 <= p <= 1.0 then 0.70 + ((p - 0.85) / 0.15) * 0.45 else p;
    Round3IsThousandths(q);
    if 0.85 <= p <= 1.0 {
      assert 0.0 <= (p - 0.85) / 0.15 <= 1.0;
      assert 0.70 <= q <= 1.15;
      assert 700.0 <= q * 1000.0 <= 1150.0;
      var n := JsRound(q * 1000.0);
      assert 700 <= n <= 1150;
      assert StretchProgress(p) == n as real / 1000.0;
    }
  }

  /** A point outside the window that already has three decimals is left where it is. */
  lemma StretchKeepsOutside(p: real)
    requires !(0.85 <= p <= 1.0) && WholeThousandths(p)
    ensures StretchProgress(p) == p
  {
    var n := JsRound(p * 1000.0);
    assert (p * 1000.0).Floor as real == p * 1000.0;
    assert n == (p * 1000.0).Floor;
  }

  /** Stretching can reverse the order of two breakpoints: 0.75 stays while 0.85 moves down to 0.70. */
  lemma StretchDoesNotKeepOrder()
    ensures var ts := [Breakpoint(0.75, "#8888B8"), Breakpoint(0.85, "#7898C8")];
      SortedByProgress(ts) && !SortedByProgress(StretchTransitionsNearEndpoint(ts))
  {
    var ts := [Breakpoint(0.75, "#8888B8"), Breakpoint(0.85, "#7898C8")];
    assert JsRound(750.0) == 750;
    assert JsRound(700.0) == 700;
    assert StretchProgress(0.75) == 0.75;
    assert StretchProgress(0.85) == 0.70;
    var r := StretchTransitionsNearEndpoint(ts);
    assert r[0].progress > r[1].progress;
  }

  /** The HSL change of lightenTransitions: lightness +20 capped at 100, saturation -15 floored at 0. */
  function LightenHsl(c: Hsl): Hsl
  {
    c.(l := Min(100.0, c.l + 20.0), s := Max(0.0, c.s - 15.0))
  }

  /** The HSL change of darkenTransitions: lightness -15 and saturation -10, both floored at 0. */
  function DarkenHsl(c: Hsl): Hsl
  {
    c.(l := Max(0.0, c.l - 15.0), s := Max(0.0, c.s - 10.0))
  }

  /** Both shifts keep hue, and keep saturation and lightness within [0, 100]. */
  lemma ShiftsStayInRange(c: Hsl)
    requires HslInRange(c)
    ensures HslInRange(LightenHsl(c)) && LightenHsl(c).h == c.h
    ensures HslInRange(DarkenHsl(c)) && DarkenHsl(c).h == c.h
    ensures LightenHsl(c).l >= c.l && LightenHsl(c).s <= c.s
    ensures DarkenHsl(c).l <= c.l && DarkenHsl(c).s <= c.s
  {
  }

  function LightenColor(color: string): string
  {
    var rgb := HexToRgb(color);
    var c := HslToRgb(LightenHsl(RgbToHsl(rgb)));
    RgbToHex(c.r as real, c.g as real, c.b as real)
  }

  function DarkenColor(color: string): string
  {
    var rgb := HexToRgb(color);
    var c := HslToRgb(DarkenHsl(RgbToHsl(rgb)));
    RgbToHex(c.r as real, c.g as real, c.b as real)
  }

  /** lightenTransitions */
  function LightenTransitions(ts: seq<Breakpoint>): (r: seq<Breakpoint>)
    ensures |r| == |ts|
    ensures forall i :: 0 <= i < |ts| ==> r[i].progress == ts[i].progress && IsCanonicalHex(r[i].color)
    ensures forall i :: 0 <= i < |ts| ==> r[i].color == LightenColor(ts[i].color)
  {
    seq(|ts|, i requires 0 <= i < |ts| => ts[i].(color := LightenColor(ts[i].color)))
  }

  /** darkenTransitions */
  function DarkenTransitions(ts: seq<Breakpoint>): (r: seq<Breakpoint>)
    ensures |r| == |ts|
    ensures forall i :: 0 <= i < |ts| ==> r[i].progress == ts[i].progress && IsCanonicalHex(r[i].color)
    ensures forall i :: 0 <= i < |ts| ==> r[i].color == DarkenColor(ts[i].color)
  {
    seq(|ts|, i requires 0 <= i < |ts| => ts[i].(color := DarkenColor(ts[i].color)))
  }

  /**
   * Whatever colour string a breakpoint carries, the HSL that either
   * modifier hands to hslToRgb is in range, so repeated lightening and
   * darkening never leaves [0, 100] for saturation or lightness.
   */
  lemma ModifiersStayInRange(color: string)
    ensures HslInRange(LightenHsl(RgbToHsl(HexToRgb(color))))
    ensures HslInRange(DarkenHsl(RgbToHsl(HexToRgb(color))))
    ensures InGamut(HslToRgb(LightenHsl(RgbToHsl(HexToRgb(color)))))
    ensures InGamut(HslToRgb(DarkenHsl(RgbToHsl(HexToRgb(color)))))
  {
    var c := RgbToHsl(HexToRgb(color));
    RgbToHslInRange(HexToRgb(color));
    ShiftsStayInRange(c);
    HslToRgbInGamut(LightenHsl(c));
    HslToRgbInGamut(DarkenHsl(c));
  }
}
