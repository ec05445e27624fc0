/**
 * The gradient card: the choice of gradient from the card type and the
 * colour scheme, and the conversion of each `#RRGGBB` colour of that
 * gradient into an `rgba(r, g, b, opacity)` colour. The JavaScript string
 * operations it relies on (`slice`, `parseInt(…, 16)`, number rendering)
 * are written out below.
 */
module GradientCard {
  import opened Optional
  import opened Text
  import opened Gradients

  /** The `type` prop. */
  datatype CardType = Primary | Warning | Neutral

  /** The rendering of `gradientOpacity` used when the prop is absent (0.1). */
  const DefaultOpacity: string := "0.1"

  /** `(useColorScheme() ?? 'light') === 'dark'`. */
  function IsDark(colorScheme: Option<string>): (d: bool)
    ensures d <==> colorScheme == Some("dark")
  {
    match colorScheme
    case Some(s) => s == "dark"
    case None => false
  }

  /** The `useMemo` switch: a warning card takes the warning gradient, a
      neutral card the neutral one, any other card the primary one, each
      in its dark variant in dark mode (the neutral gradient has none). */
  function SelectGradient(cardType: CardType, isDark: bool): (g: Gradient)
    ensures cardType == Neutral ==> g == Gradients.Neutral
    ensures cardType == Warning ==> g == (if isDark then WarningDark else Gradients.Warning)
    ensures cardType == Primary ==> g == (if isDark then PrimaryDark else Gradients.Primary)
  {
    if isDark then
      match cardType
      case Warning => WarningDark
      case Neutral => Gradients.Neutral
      case Primary => PrimaryDark
    else
      match cardType
      case Warning => Gradients.Warning
      case Neutral => Gradients.Neutral
      case Primary => Gradients.Primary
  }

  /** JavaScript `s.slice(start, end)` for non-negative bounds: both are
      clamped to the length, and an empty string results when they cross. */
  function Slice(s: string, start: nat, end: nat): (r: string)
    ensures start <= end <= |s| ==> r == s[start..end]
    ensures |r| <= |s|
  {
    var from := if start < |s| then start else |s|;
    var to := if end < |s| then end else |s|;
    if from <= to then s[from..to] else ""
  }

  predicate IsHexDigit(c: char) {
    ('0' <= c <= '9') || ('a' <= c <= 'f') || ('A' <= c <= 'F')
  }

  predicate AllHex(s: string) {
    forall i :: 0 <= i < |s| ==> IsHexDigit(s[i])
  }

  function HexDigitValue(c: char): (v: nat)
    requires IsHexDigit(c)
    ensures v < 16
  {
    if '0' <= c <= '9' then c as int - '0' as int
    else if 'a' <= c <= 'f' then c as int - 'a' as int + 10
    else c as int - 'A' as int + 10
  }

  /** The value of a string of hexadecimal digits, most significant first. */
  function HexValue(s: string): nat
    requires AllHex(s)
  {
    if s == [] then 0 else HexValue(s[..|s| - 1]) * 16 + HexDigitValue(s[|s| - 1])
  }

  /** Two hexadecimal digits hold a byte: the first counts sixteen times. */
  lemma HexPairValue(s: string)
    requires |s| == 2 && AllHex(s)
    ensures HexValue(s) == HexDigitValue(s[0]) * 16 + HexDigitValue(s[1])
    ensures HexValue(s) < 256
  {
    var first := s[..1];
    assert first[..0] == [];
    assert HexValue(first) == HexDigitValue(s[0]);
  }

  /** JavaScript's `StrWhiteSpaceChar`: the white space and line terminators
      `parseInt` skips. */
  predicate IsJsWhitespace(c: char) {
    c == '\t' || c == '\n' || c == '\U{000B}' || c == '\U{000C}' || c == '\r' || c == ' '
    || c == '\U{00A0}' || c == '\U{1680}' || ('\U{2000}' <= c <= '\U{200A}')
    || c == '\U{2028}' || c == '\U{2029}' || c == '\U{202F}' || c == '\U{205F}'
    || c == '\U{3000}' || c == '\U{FEFF}'
  }

  function JsTrimStart(s: string): (r: string)
    ensures |r| <= |s| && r == s[|s| - |r|..]
    ensures r == [] || !IsJsWhitespace(r[0])
  {
    if s == [] || !IsJsWhitespace(s[0]) then s else JsTrimStart(s[1..])
  }

  /** The longest prefix made of hexadecimal digits. */
  function HexPrefix(s: string): (p: string)
    ensures |p| <= |s| && p == s[..|p|] && AllHex(p)
    ensures |p| < |s| ==> !IsHexDigit(s[|p|])
  {
    if s == [] || !IsHexDigit(s[0]) then ""
    else [s[0]] + HexPrefix(s[1..])
  }

  /** JavaScript `parseInt(s, 16)`: leading white space skipped, an optional
      sign, an optional `0x`/`0X`, then the longest run of hexadecimal
      digits; `NaN` (here `None`) when that run is empty. */
  function ParseIntHex(s: string): (r: Option<int>)
    ensures r.None? <==> HexPrefix(HexBody(s)) == []
    ensures r.Some? ==> r.value == HexSign(s) * HexValue(HexPrefix(HexBody(s)))
  {
    var digits := HexPrefix(HexBody(s));
    if digits == [] then None else Some(HexSign(s) * HexValue(digits))
  }

  /** -1 when the number text starts with '-', otherwise 1. */
  function HexSign(s: string): int {
    var t := JsTrimStart(s);
    if t != [] && t[0] == '-' then -1 else 1
  }

  /** What follows the white space, the sign and the `0x` prefix. */
  function HexBody(s: string): string {
    var t := JsTrimStart(s);
    var u := if t != [] && (t[0] == '-' || t[0] == '+') then t[1..] else t;
    if |u| >= 2 && u[0] == '0' && (u[1] == 'x' || u[1] == 'X') then u[2..] else u
  }

  /** A non-empty run of hexadecimal digits parses to its value. */
  lemma {:induction false} ParseIntHexDigits(s: string)
    requires s != [] && AllHex(s) && (|s| >= 2 ==> s[1] != 'x' && s[1] != 'X')
    ensures ParseIntHex(s) == Some(HexValue(s))
  {
    assert JsTrimStart(s) == s;
    assert HexBody(s) == s;
    HexPrefixAll(s);
  }

  lemma {:induction false} HexPrefixAll(s: string)
    requires AllHex(s)
    ensures HexPrefix(s) == s
    decreases |s|
  {
    if s != [] {
      HexPrefixAll(s[1..]);
      assert [s[0]] + s[1..] == s;
    }
  }

  /** Template-literal rendering of a `parseInt` result. */
  function NumberText(n: Option<int>): (t: string)
    ensures n.None? ==> t == "NaN"
    ensures n.Some? ==> t == IntToString(n.value)
  {
    match n
    case None => "NaN"
    case Some(v) => IntToString(v)
  }

  /** The text `rgba(r, g, b, opacity)`. */
  function RgbaText(r: string, g: string, b: string, opacity: string): string {
    "rgba(" + r + ", " + g + ", " + b + ", " + opacity + ")"
  }

  /** The colour mapping: a colour starting with '#' becomes `rgba(...)`
      from the hexadecimal pairs at 1-2, 3-4 and 5-6; any other colour is
      kept as it is. */
  function ToRgba(color: string, opacity: string): (out: string)
    ensures !StartsWith(color, "#") ==> out == color
    ensures StartsWith(color, "#") ==> out == RgbaText(
      NumberText(ParseIntHex(Slice(color, 1, 3))),
      NumberText(ParseIntHex(Slice(color, 3, 5))),
      NumberText(ParseIntHex(Slice(color, 5, 7))), opacity)
  {
    if StartsWith(color, "#") then
      var r := ParseIntHex(Slice(color, 1, 3));
      var g := ParseIntHex(Slice(color, 3, 5));
      var b := ParseIntHex(Slice(color, 5, 7));
      RgbaText(NumberText(r), NumberText(g), NumberText(b), opacity)
    else color
  }

  /** `gradient.colors.map(...)`. */
  function MapColors(colors: seq<string>, opacity: string): (out: seq<string>)
    ensures |out| == |colors|
    ensures forall i :: 0 <= i < |colors| ==> out[i] == ToRgba(colors[i], opacity)
  {
    seq(|colors|, i requires 0 <= i < |colors| => ToRgba(colors[i], opacity))
  }

  /** `#RRGGBB`. */
  predicate WellFormedHex(color: string) {
    |color| == 7 && color[0] == '#' && AllHex(color[1..])
  }

  /** The byte written at positions k and k + 1 of a `#RRGGBB` colour. */
  function Channel(color: string, k: nat): (v: nat)
    requires WellFormedHex(color) && 1 <= k <= 5
    ensures v < 256
  {
    HexPairOf(color, k);
    HexValue(color[k..k + 2])
  }

  /** `rgba(r, g, b, opacity)` of the three bytes of a `#RRGGBB` colour. */
  function RgbaOf(color: string, opacity: string): string
    requires WellFormedHex(color)
  {
    RgbaText(IntToString(Channel(color, 1)), IntToString(Channel(color, 3)), IntToString(Channel(color, 5)), opacity)
  }

  /** A `#RRGGBB` colour becomes `rgba(r, g, b, opacity)` with r, g and b the
      values of its three hexadecimal pairs. */
  lemma WellFormedToRgba(color: string, opacity: string)
    requires WellFormedHex(color)
    ensures ToRgba(color, opacity) == RgbaOf(color, opacity)
  {
    assert StartsWith(color, "#");
    HexPairOf(color, 1);
    HexPairOf(color, 3);
    HexPairOf(color, 5);
  }

  lemma HexPairOf(color: string, k: nat)
    requires WellFormedHex(color) && 1 <= k <= 5
    ensures AllHex(color[k..k + 2])
    ensures HexValue(color[k..k + 2]) < 256
    ensures ParseIntHex(Slice(color, k, k + 2)) == Some(HexValue(color[k..k + 2]))
  {
    var p := color[k..k + 2];
    assert forall i :: 0 <= i < 2 ==> p[i] == color[1..][k - 1 + i];
    HexPairValue(p);
    ParseIntHexDigits(p);
  }

  /** Upper-case hexadecimal digit of a value below 16. */
  function HexDigitChar(d: nat): (c: char)
    requires d < 16
    ensures IsHexDigit(c) && HexDigitValue(c) == d
    ensures c != 'x' && c != 'X'
  {
    if d < 10 then ('0' as int + d) as char else ('A' as int + d - 10) as char
  }

  /** Two hexadecimal digits of a byte. */
  function HexPair(v: nat): (p: string)
    requires v < 256
    ensures |p| == 2 && AllHex(p) && HexValue(p) == v
  {
    var p := [HexDigitChar(v / 16), HexDigitChar(v % 16)];
    HexPairValue(p);
    p
  }

  /** `#RRGGBB` of three bytes. */
  function HexColor(r: nat, g: nat, b: nat): (c: string)
    requires r < 256 && g < 256 && b < 256
    ensures WellFormedHex(c)
  {
    var c := "#" + HexPair(r) + HexPair(g) + HexPair(b);
    assert c[1..] == HexPair(r) + HexPair(g) + HexPair(b);
    c
  }

  /** The conversion reads the three bytes of a colour back exactly. */
  lemma HexColorToRgba(r: nat, g: nat, b: nat, opacity: string)
    requires r < 256 && g < 256 && b < 256
    ensures ToRgba(HexColor(r, g, b), opacity)
      == RgbaText(IntToString(r), IntToString(g), IntToString(b), opacity)
  {
    var c := HexColor(r, g, b);
    assert c[1..3] == HexPair(r);
    assert c[3..5] == HexPair(g);
    assert c[5..7] == HexPair(b);
    assert Channel(c, 1) == r && Channel(c, 3) == g && Channel(c, 5) == b;
    WellFormedToRgba(c, opacity);
  }

  /** Every colour of the card gradients is a well-formed `#RRGGBB`. */
  lemma CardGradientsWellFormed(cardType: CardType, isDark: bool)
    ensures forall c :: c in SelectGradient(cardType, isDark).colors ==> WellFormedHex(c)
  {
    var g := SelectGradient(cardType, isDark);
    if g == Gradients.Primary {
      SevenHex("#00C9FF");
      SevenHex("#92FE9D");
    } else if g == Gradients.Warning {
      SevenHex("#FF5F6D");
      SevenHex("#FF9966");
    } else if g == Gradients.Neutral {
      SevenHex("#808080");
      SevenHex("#A9A9A9");
    } else if g == PrimaryDark {
      SevenHex("#0077B6");
      SevenHex("#48BFE3");
    } else {
      SevenHex("#E63946");
      SevenHex("#F4845F");
    }
  }

  /** A '#' and six hexadecimal digits make a well-formed colour. */
  lemma SevenHex(c: string)
    requires |c| == 7 && c[0] == '#'
    requires IsHexDigit(c[1]) && IsHexDigit(c[2]) && IsHexDigit(c[3])
    requires IsHexDigit(c[4]) && IsHexDigit(c[5]) && IsHexDigit(c[6])
    ensures WellFormedHex(c)
  {
    forall i | 0 <= i < 6 ensures IsHexDigit(c[1..][i]) {
      assert c[1..][i] == c[i + 1];
    }
  }

  /** The colours the card passes to `LinearGradient`, with the props'
      defaults: type 'primary', opacity 0.1 and the light scheme. */
  function CardColors(cardType: Option<CardType>, gradientOpacity: Option<string>, colorScheme: Option<string>): (out: seq<string>)
    ensures var g := SelectGradient(cardType.GetOr(Primary), IsDark(colorScheme));
      out == MapColors(g.colors, gradientOpacity.GetOr(DefaultOpacity))
  {
    var t := cardType.GetOr(Primary);
    var opacity := gradientOpacity.GetOr(DefaultOpacity);
    MapColors(SelectGradient(t, IsDark(colorScheme)).colors, opacity)
  }

  /** Every colour the card shows is the `rgba(...)` of the bytes of the
      chosen gradient's colour at the same place. */
  lemma CardColorsInRange(cardType: Option<CardType>, gradientOpacity: Option<string>, colorScheme: Option<string>)
    ensures var g := SelectGradient(cardType.GetOr(Primary), IsDark(colorScheme));
      var out := CardColors(cardType, gradientOpacity, colorScheme);
      |out| == |g.colors| &&
      forall i :: 0 <= i < |out| ==>
        WellFormedHex(g.colors[i]) && out[i] == RgbaOf(g.colors[i], gradientOpacity.GetOr(DefaultOpacity))
  {
    var g := SelectGradient(cardType.GetOr(Primary), IsDark(colorScheme));
    var opacity := gradientOpacity.GetOr(DefaultOpacity);
    CardGradientsWellFormed(cardType.GetOr(Primary), IsDark(colorScheme));
    forall i | 0 <= i < |g.colors|
      ensures WellFormedHex(g.colors[i]) && ToRgba(g.colors[i], opacity) == RgbaOf(g.colors[i], opacity)
    {
      assert g.colors[i] in g.colors;
      WellFormedToRgba(g.colors[i], opacity);
    }
  }
}
