/**
 * Hexadecimal digits as both the browser and the Python service read and
 * write them: JavaScript's Number.prototype.toString(16) and parseInt(s, 16)
 * on two-digit pairs, Python's format(n, "02x") and int(s, 16) on slices of at
 * most two characters.
 */
module Hex {
  import opened Base

  predicate IsHexDigit(c: char) { '0' <= c <= '9' || 'a' <= c <= 'f' || 'A' <= c <= 'F' }

  predicate IsLowerHexDigit(c: char) { '0' <= c <= '9' || 'a' <= c <= 'f' }

  predicate AllHex(s: string) { forall i :: 0 <= i < |s| ==> IsHexDigit(s[i]) }

  predicate AllLowerHex(s: string) { forall i :: 0 <= i < |s| ==> IsLowerHexDigit(s[i]) }

  function DigitValue(c: char): (v: nat)
    requires IsHexDigit(c)
    ensures v < 16
  {
    if '0' <= c <= '9' then c as int - '0' as int
    else if 'a' <= c <= 'f' then c as int - 'a' as int + 10
    else c as int - 'A' as int + 10
  }

  /** The lower-case digit that toString(16) and format(n, "x") write for v. */
  function LowerDigit(v: nat): (c: char)
    requires v < 16
    ensures IsLowerHexDigit(c) && DigitValue(c) == v
  {
    if v < 10 then ('0' as int + v) as char else ('a' as int + v - 10) as char
  }

  /** n.toString(16) for a non-negative integer, equally Python's format(n, "x"). */
  function ToHexString(n: nat): (s: string)
    ensures 1 <= |s| && AllLowerHex(s)
    ensures |s| == 1 <==> n < 16
    decreases n
  {
    if n < 16 then [LowerDigit(n)] else ToHexString(n / 16) + [LowerDigit(n % 16)]
  }

  /**
   * The two-character form of a byte that rgbToHex builds: toString(16),
   * with a leading '0' when that gives a single digit.
   */
  function Hex2(n: nat): (s: string)
    requires n < 256
    ensures |s| == 2 && s[0] == LowerDigit(n / 16) && s[1] == LowerDigit(n % 16)
  {
    var h := ToHexString(n);
    if |h| == 1 then "0" + h
    else
      assert h == ToHexString(n / 16) + [LowerDigit(n % 16)] && ToHexString(n / 16) == [LowerDigit(n / 16)];
      h
  }

  /** parseInt(s, 16) on a string of hex digits: the digits' value. */
  function HexValue(s: string): (v: nat)
    requires AllHex(s)
    decreases |s|
  {
    if s == [] then 0 else 16 * HexValue(s[..|s| - 1]) + DigitValue(s[|s| - 1])
  }

  lemma HexValueOfPair(a: char, b: char)
    requires IsHexDigit(a) && IsHexDigit(b)
    ensures HexValue([a, b]) == 16 * DigitValue(a) + DigitValue(b) < 256
  {
    assert [a, b][..1] == [a];
    assert [a][..0] == [];
    assert HexValue([a]) == DigitValue(a);
    assert HexValue([a, b]) == 16 * HexValue([a]) + DigitValue(b);
  }

  /** Python's str.isspace() on the Latin-1 range. */
  predicate PySpace(c: char)
  {
    c == ' ' || ('\t' <= c <= '\r') || ('\U{1c}' <= c <= '\U{1f}') || c == '\U{85}' || c == '\U{a0}'
  }

  function StripSpaces(s: string): (t: string)
    ensures |t| <= |s|
    decreases |s|
  {
    if s != [] && PySpace(s[0]) then StripSpaces(s[1..])
    else if s != [] && PySpace(s[|s| - 1]) then StripSpaces(s[..|s| - 1])
    else s
  }

  /**
   * Python's int(s, 16) on a slice of at most two characters: surrounding
   * white space is ignored, an optional sign is allowed, and the rest must be
   * hex digits; anything else raises ValueError (None here). Underscores and a
   * "0x" prefix, which int() also accepts, need at least three characters.
   */
  function PyParseHex(s: string): (r: Option<int>)
    requires |s| <= 2
    ensures AllHex(s) && s != [] ==> r == Some(HexValue(s))
  {
    var t := StripSpaces(s);
    if t == [] then None
    else if t[0] == '+' || t[0] == '-' then
      var body := t[1..];
      if body != [] && AllHex(body) then
        var v: int := HexValue(body);
        Some(if t[0] == '-' then -v else v)
      else None
    else if AllHex(t) then Some(HexValue(t))
    else None
  }

  /** int("", 16) raises. */
  lemma PyParseHexEmpty()
    ensures PyParseHex([]) == None
  {
    assert StripSpaces([]) == [];
  }

  /** Python f"{n:02x}": at least two characters, zero-padded after any sign. */
  function PyFormat02x(n: int): (s: string)
    ensures 0 <= n < 256 ==> s == Hex2(n)
  {
    if n < 0 then "-" + ToHexString(-n)
    else
      var h := ToHexString(n);
      if |h| == 1 then "0" + h else h
  }
}
