/**
 * Face shading: a `#RRGGBB` colour is split into its three two-digit hex
 * channels, each is scaled by a factor, floored and capped at 255. The
 * parsing follows JavaScript's `replace`, `substr` and `parseInt(_, 16)`;
 * a channel that fails to parse is JavaScript's NaN, here `None`.
 */
module Colour {
  import opened Options

  /** The channel triple the shaded colour is formatted from; `None` is NaN. */
  datatype Rgb = Rgb(r: Option<int>, g: Option<int>, b: Option<int>)

  predicate IsHexDigit(c: char) {
    '0' <= c <= '9' || 'a' <= c <= 'f' || 'A' <= c <= 'F'
  }

  function HexDigitValue(c: char): (n: nat)
    requires IsHexDigit(c)
    ensures n < 16
  {
    if '0' <= c <= '9' then (c - '0') as nat
    else if 'a' <= c <= 'f' then (c - 'a') as nat + 10
    else (c - 'A') as nat + 10
  }

  /** The upper-case digit for a value below 16, as the arena's colours are written. */
  function HexDigitChar(n: nat): (c: char)
    requires n < 16
    ensures IsHexDigit(c) && HexDigitValue(c) == n
  {
    if n < 10 then ('0' as int + n) as char else ('A' as int + n - 10) as char
  }

  /** White space that `parseInt` skips at the start (the ASCII set plus NBSP, BOM and the line separators). */
  predicate IsLeadingSpace(c: char) {
    || c == ' ' || c == '\t' || c == '\n' || c == '\r' || c == '\U{000B}' || c == '\U{000C}'
    || c == '\U{00A0}' || c == '\U{FEFF}' || c == '\U{2028}' || c == '\U{2029}'
  }

  function TrimStart(s: string): string {
    if |s| > 0 && IsLeadingSpace(s[0]) then TrimStart(s[1..]) else s
  }

  /**
   * Reads the run of hex digits at the start of `s`, most significant
   * first, on top of the value `acc` read so far; `None` while no digit
   * has been read.
   */
  function ReadHexDigits(s: string, acc: Option<nat>): (r: Option<nat>)
    ensures acc.Some? ==> r.Some? && r.value >= acc.value
    ensures r.None? <==> acc.None? && (|s| == 0 || !IsHexDigit(s[0]))
    decreases |s|
  {
    if |s| > 0 && IsHexDigit(s[0]) then
      var sofar := match acc case None => 0 case Some(v) => v;
      ReadHexDigits(s[1..], Some(sofar * 16 + HexDigitValue(s[0])))
    else
      acc
  }

  /**
   * `parseInt(s, 16)`: skip leading white space, take an optional sign and
   * an optional `0x`/`0X` prefix, then the longest run of hex digits; with
   * no digit at all the result is NaN.
   */
  function ParseHex(s: string): (r: Option<int>)
    ensures TrimStart(s) == [] ==> r == None
    ensures |s| > 0 && IsHexDigit(s[0]) && s[0] != '0' ==> r.Some? && r.value >= 0
  {
    var t := TrimStart(s);
    var negative := |t| > 0 && t[0] == '-';
    var unsigned := if |t| > 0 && (t[0] == '+' || t[0] == '-') then t[1..] else t;
    var digits := if |unsigned| >= 2 && unsigned[0] == '0' && (unsigned[1] == 'x' || unsigned[1] == 'X') then unsigned[2..] else unsigned;
    match ReadHexDigits(digits, None)
    case None => None
    case Some(magnitude) => Some(if negative then -(magnitude as int) else magnitude)
  }

  /** `s.replace('#', '')`: only the first `#` goes. */
  function RemoveFirstHash(s: string): (t: string)
    ensures '#' !in s ==> t == s
    ensures |s| > 0 && s[0] == '#' ==> t == s[1..]
  {
    if |s| == 0 then s
    else if s[0] == '#' then s[1..]
    else [s[0]] + RemoveFirstHash(s[1..])
  }

  /** `s.substr(start, length)` for the non-negative arguments used here. */
  function Substr(s: string, start: nat, length: nat): (t: string)
    ensures |t| <= length
    ensures start + length <= |s| ==> t == s[start..start + length]
  {
    if start >= |s| then "" else if start + length <= |s| then s[start..start + length] else s[start..]
  }

  function MinInt(a: int, b: int): int {
    if a <= b then a else b
  }

  /** `Math.floor(v * factor)`. */
  function ScaledFloor(v: int, factor: real): int {
    ((v as real) * factor).Floor
  }

  /** `Math.min(255, Math.floor(parseInt(pair, 16) * factor))`; NaN stays NaN. */
  function Channel(pair: string, factor: real): (r: Option<int>)
    ensures r.None? <==> ParseHex(pair).None?
    ensures r.Some? ==> r.value <= 255
    ensures |pair| == 2 && IsHexDigit(pair[0]) && IsHexDigit(pair[1]) ==>
      r == Some(MinInt(255, ScaledFloor(HexByte(pair[0], pair[1]), factor)))
  {
    assert |pair| == 2 && IsHexDigit(pair[0]) && IsHexDigit(pair[1]) ==> ParseHex(pair) == Some(HexByte(pair[0], pair[1])) by {
      if |pair| == 2 && IsHexDigit(pair[0]) && IsHexDigit(pair[1]) {
        ParseHexPair(pair);
      }
    }
    match ParseHex(pair)
    case None => None
    case Some(v) => Some(MinInt(255, ScaledFloor(v, factor)))
  }

  /** The colour `color` with every channel scaled by `factor`. */
  function AdjustBrightness(color: string, factor: real): (c: Rgb)
    ensures IsHexColour(color) ==> c == Rgb(
      Some(MinInt(255, ScaledFloor(HexByte(color[1], color[2]), factor))),
      Some(MinInt(255, ScaledFloor(HexByte(color[3], color[4]), factor))),
      Some(MinInt(255, ScaledFloor(HexByte(color[5], color[6]), factor))))
  {
    var hex := RemoveFirstHash(color);
    var red, green, blue := Substr(hex, 0, 2), Substr(hex, 2, 2), Substr(hex, 4, 2);
    assert IsHexColour(color) ==>
      && |red| == 2 && red[0] == color[1] && red[1] == color[2]
      && |green| == 2 && green[0] == color[3] && green[1] == color[4]
      && |blue| == 2 && blue[0] == color[5] && blue[1] == color[6]
    by {
      if IsHexColour(color) {
        HexColourPairs(color);
      }
    }
    Rgb(Channel(red, factor), Channel(green, factor), Channel(blue, factor))
  }

  /** A well-formed colour: `#` followed by exactly six hexadecimal digits. */
  predicate IsHexColour(color: string) {
    && |color| == 7 && color[0] == '#'
    && IsHexDigit(color[1]) && IsHexDigit(color[2]) && IsHexDigit(color[3])
    && IsHexDigit(color[4]) && IsHexDigit(color[5]) && IsHexDigit(color[6])
  }

  /** The `#RRGGBB` spelling of a channel triple. */
  function HexColour(r: nat, g: nat, b: nat): (color: string)
    requires r < 256 && g < 256 && b < 256
    ensures IsHexColour(color)
  {
    ['#', HexDigitChar(r / 16), HexDigitChar(r % 16), HexDigitChar(g / 16), HexDigitChar(g % 16),
     HexDigitChar(b / 16), HexDigitChar(b % 16)]
  }

  /** The byte two hex digits spell, most significant first. */
  function HexByte(hi: char, lo: char): (n: nat)
    requires IsHexDigit(hi) && IsHexDigit(lo)
    ensures n < 256
  {
    HexDigitValue(hi) * 16 + HexDigitValue(lo)
  }

  /** Two hex digits parse to the byte they spell. */
  lemma ParseHexPair(s: string)
    requires |s| == 2 && IsHexDigit(s[0]) && IsHexDigit(s[1])
    ensures ParseHex(s) == Some(HexByte(s[0], s[1]))
  {
    assert TrimStart(s) == s;
    assert |s[1..][1..]| == 0;
    assert ReadHexDigits(s[1..], Some(HexDigitValue(s[0]))) == Some(HexByte(s[0], s[1]));
  }

  /** The three `substr` pairs of a well-formed colour are its three digit pairs. */
  lemma HexColourPairs(color: string)
    requires IsHexColour(color)
    ensures var red := Substr(RemoveFirstHash(color), 0, 2);
      |red| == 2 && red[0] == color[1] && red[1] == color[2]
    ensures var green := Substr(RemoveFirstHash(color), 2, 2);
      |green| == 2 && green[0] == color[3] && green[1] == color[4]
    ensures var blue := Substr(RemoveFirstHash(color), 4, 2);
      |blue| == 2 && blue[0] == color[5] && blue[1] == color[6]
  {
    assert RemoveFirstHash(color) == color[1..];
  }

  lemma CappedInRange(v: nat, factor: real)
    requires factor >= 0.0
    ensures 0 <= MinInt(255, ScaledFloor(v, factor)) <= 255
  {
    assert (v as real) * factor >= 0.0;
  }

  /** With a well-formed colour and a non-negative factor, every channel is a number in [0, 255]. */
  lemma AdjustBrightnessInRange(color: string, factor: real)
    requires IsHexColour(color)
    requires factor >= 0.0
    ensures var c := AdjustBrightness(color, factor);
      && c.r.Some? && c.g.Some? && c.b.Some?
      && 0 <= c.r.value <= 255 && 0 <= c.g.value <= 255 && 0 <= c.b.value <= 255
  {
    CappedInRange(HexByte(color[1], color[2]), factor);
    CappedInRange(HexByte(color[3], color[4]), factor);
    CappedInRange(HexByte(color[5], color[6]), factor);
  }

  lemma HexDigitsRoundTrip(n: nat)
    requires n < 256
    ensures HexByte(HexDigitChar(n / 16), HexDigitChar(n % 16)) == n
  {
  }

  /** Factor 1 gives back exactly the channels a colour was written from. */
  lemma UnitFactorRoundTrip(r: nat, g: nat, b: nat)
    requires r < 256 && g < 256 && b < 256
    ensures AdjustBrightness(HexColour(r, g, b), 1.0) == Rgb(Some(r), Some(g), Some(b))
  {
    var color := HexColour(r, g, b);
    assert color[1] == HexDigitChar(r / 16) && color[2] == HexDigitChar(r % 16);
    assert color[3] == HexDigitChar(g / 16) && color[4] == HexDigitChar(g % 16);
    assert color[5] == HexDigitChar(b / 16) && color[6] == HexDigitChar(b % 16);
    HexDigitsRoundTrip(r);
    HexDigitsRoundTrip(g);
    HexDigitsRoundTrip(b);
    assert HexByte(color[1], color[2]) == r && HexByte(color[3], color[4]) == g && HexByte(color[5], color[6]) == b;
    assert ScaledFloor(r, 1.0) == r && ScaledFloor(g, 1.0) == g && ScaledFloor(b, 1.0) == b;
  }

  lemma ScaledDown(v: nat, factor: real)
    requires 0.0 <= factor <= 1.0
    ensures ScaledFloor(v, factor) <= v
  {
    assert (v as real) * factor <= (v as real) * 1.0;
  }

  /** A factor in [0, 1] never brightens a channel. */
  lemma DimmingNeverBrightens(color: string, factor: real)
    requires IsHexColour(color)
    requires 0.0 <= factor <= 1.0
    ensures var c := AdjustBrightness(color, factor);
      && c.r.Some? && c.r.value <= HexByte(color[1], color[2])
      && c.g.Some? && c.g.value <= HexByte(color[3], color[4])
      && c.b.Some? && c.b.value <= HexByte(color[5], color[6])
  {
    ScaledDown(HexByte(color[1], color[2]), factor);
    ScaledDown(HexByte(color[3], color[4]), factor);
    ScaledDown(HexByte(color[5], color[6]), factor);
  }

  /** The arena's wall colour lit for the brightest face: 0x8B, 0x5C, 0xF6 scaled by 1.2, the blue channel capped. */
  lemma WallTopFace()
    ensures AdjustBrightness("#8B5CF6", 1.2) == Rgb(Some(166), Some(110), Some(255))
  {
    var wall := "#8B5CF6";
    assert IsHexColour(wall);
    assert HexByte(wall[1], wall[2]) == 139 && HexByte(wall[3], wall[4]) == 92 && HexByte(wall[5], wall[6]) == 246;
    assert ScaledFloor(139, 1.2) == 166;
    assert ScaledFloor(92, 1.2) == 110;
    assert ScaledFloor(246, 1.2) == 295;
  }
}
