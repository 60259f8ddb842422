/**
 * Colour translation of the recursive converter (src/design-api.js): a
 * JSON colour (component object, 3/6/8-digit hex text or `rgb()`/`rgba()`
 * text) becomes the content of an `rgba(r, g, b, a)` string, and
 * `parseColorValue` reads such a string back into channels.
 */
module ColorTranslator {
  import opened JsValues
  import opened DesignNode
  import opened NativeStyle

  /* ---------- characters ---------- */

  /** The characters JavaScript's `trim` removes and `\s` matches. */
  predicate IsJsSpace(c: char)
  {
    c == ' ' || c == '\t' || c == '\n' || c == '\r' || c == '\U{B}' || c == '\U{C}' ||
    c == '\U{A0}' || c == '\U{FEFF}' || c == '\U{1680}' || ('\U{2000}' <= c <= '\U{200A}') ||
    c == '\U{2028}' || c == '\U{2029}' || c == '\U{202F}' || c == '\U{205F}' || c == '\U{3000}'
  }

  predicate IsDigit(c: char)
  {
    '0' <= c <= '9'
  }

  /** `[a-f\d]` under the `i` flag. */
  predicate IsHexDigit(c: char)
  {
    IsDigit(c) || 'a' <= c <= 'f' || 'A' <= c <= 'F'
  }

  function HexValue(c: char): (v: nat)
    requires IsHexDigit(c)
    ensures v < 16
  {
    if IsDigit(c) then (c as int - '0' as int) as nat
    else if 'a' <= c <= 'f' then (c as int - 'a' as int) as nat + 10
    else (c as int - 'A' as int) as nat + 10
  }

  predicate AllHex(d: string)
  {
    forall i :: 0 <= i < |d| ==> IsHexDigit(d[i])
  }

  /** `parseInt(d[2k] d[2k+1], 16)` */
  function Pair(d: string, k: nat): (v: nat)
    requires AllHex(d) && 2 * k + 1 < |d|
    ensures v < 256
  {
    16 * HexValue(d[2 * k]) + HexValue(d[2 * k + 1])
  }

  /** `parseInt(d, 10)` of a non-empty run of decimal digits. */
  function DigitsValue(d: string): nat
    requires AllDigits(d)
  {
    if d == [] then 0
    else
      assert IsDigit(d[|d| - 1]);
      10 * DigitsValue(d[..|d| - 1]) + (d[|d| - 1] as int - '0' as int)
  }

  /* ---------- trim ---------- */

  function TrimStart(s: string): string
  {
    if |s| > 0 && IsJsSpace(s[0]) then TrimStart(s[1..]) else s
  }

  function TrimEnd(s: string): string
  {
    if |s| > 0 && IsJsSpace(s[|s| - 1]) then TrimEnd(s[..|s| - 1]) else s
  }

  /** `String.prototype.trim` */
  function Trim(s: string): string
  {
    TrimEnd(TrimStart(s))
  }

  /* ---------- hex forms ---------- */

  /**
   * `^#?([a-f\d]{2}){n/2}$` under `i`: the n digits when `h` is exactly n hex
   * digits, optionally preceded by '#'.
   */
  function HexDigits(h: string, n: nat): (d: Option<string>)
    ensures d.Some? ==> |d.value| == n && AllHex(d.value)
  {
    if |h| == n && AllHex(h) then Some(h)
    else if |h| == n + 1 && h[0] == '#' && AllHex(h[1..]) then Some(h[1..])
    else None
  }

  /** A 4-character text `?rgb` becomes `#rrggbb` (its first character is ignored). */
  function ExpandShort(t: string): string
  {
    if |t| == 4 then ['#', t[1], t[1], t[2], t[2], t[3], t[3]] else t
  }

  /* ---------- the rgb()/rgba() patterns ---------- */

  /** The groups an `rgb()`/`rgba()` pattern captures. */
  datatype RgbMatch = RgbMatch(red: string, green: string, blue: string, alpha: Option<string>)

  function SkipSpaces(s: string, i: nat): (j: nat)
    requires i <= |s|
    ensures i <= j <= |s|
    decreases |s| - i
  {
    if i < |s| && IsJsSpace(s[i]) then SkipSpaces(s, i + 1) else i
  }

  /** `\s*` where the pattern has it (`loose`), nothing where it does not. */
  function Spaces(s: string, i: nat, loose: bool): (j: nat)
    requires i <= |s|
    ensures i <= j <= |s|
  {
    if loose then SkipSpaces(s, i) else i
  }

  /** End of the longest run of characters from `i` satisfying `digit` or, with `dot`, '.'. */
  function RunEnd(s: string, i: nat, dot: bool): (j: nat)
    requires i <= |s|
    ensures i <= j <= |s|
    ensures forall k :: i <= k < j ==> IsDigit(s[k]) || (dot && s[k] == '.')
    ensures !dot ==> AllDigits(s[i..j])
    decreases |s| - i
  {
    if i < |s| && (IsDigit(s[i]) || (dot && s[i] == '.')) then RunEnd(s, i + 1, dot) else i
  }

  /** `,` followed by `\s*`; returns the position after both. */
  function Comma(s: string, i: nat): (j: Option<nat>)
    requires i <= |s|
    ensures j.Some? ==> i < j.value <= |s|
  {
    if i < |s| && s[i] == ',' then Some(SkipSpaces(s, i + 1)) else None
  }

  /**
   * The pattern matched at position `i`, if it matches there. With `loose`
   * it is `rgba?\s*\(\s*(\d+)\s*,\s*(\d+)\s*,\s*(\d+)\s*(?:,\s*([\d.]+))?\s*\)`;
   * without, `rgba?\((\d+),\s*(\d+),\s*(\d+)(?:,\s*([\d.]+))?\)`. Each
   * quantifier is greedy and no backtracking can change the outcome, so one
   * left-to-right pass decides the match.
   */
  function MatchRgbAt(s: string, i: nat, loose: bool): (r: Option<RgbMatch>)
    requires i <= |s|
    ensures r.Some? ==> AllDigits(r.value.red) && AllDigits(r.value.green) && AllDigits(r.value.blue)
  {
    if !(i + 3 <= |s| && s[i..i + 3] == "rgb") then None
    else
      var a := if i + 3 < |s| && s[i + 3] == 'a' then i + 4 else i + 3;
      var p := Spaces(s, a, loose);
      if !(p < |s| && s[p] == '(') then None
      else
        var s1 := Spaces(s, p + 1, loose);
        var e1 := RunEnd(s, s1, false);
        if e1 == s1 then None
        else match Comma(s, Spaces(s, e1, loose))
        case None => None
        case Some(s2) =>
          var e2 := RunEnd(s, s2, false);
          if e2 == s2 then None
          else match Comma(s, Spaces(s, e2, loose))
          case None => None
          case Some(s3) =>
            var e3 := RunEnd(s, s3, false);
            if e3 == s3 then None
            else
              var n := Spaces(s, e3, loose);
              var channels := RgbMatch(s[s1..e1], s[s2..e2], s[s3..e3], None);
              match Comma(s, n)
              case Some(s4) =>
                var e4 := RunEnd(s, s4, true);
                var q := Spaces(s, e4, loose);
                if e4 > s4 && q < |s| && s[q] == ')' then Some(channels.(alpha := Some(s[s4..e4]))) else None
              case None =>
                if n < |s| && s[n] == ')' then Some(channels) else None
  }

  /** `String.prototype.match` of the pattern: the leftmost position where it matches. */
  function SearchRgb(s: string, i: nat, loose: bool): Option<RgbMatch>
    requires i <= |s|
    decreases |s| - i
  {
    var m := MatchRgbAt(s, i, loose);
    if m.Some? || i == |s| then m else SearchRgb(s, i + 1, loose)
  }

  /** The captured channel texts are decimal digit runs, so `parseInt` reads them exactly. */
  lemma {:induction false} MatchDigits(s: string, i: nat, loose: bool)
    requires i <= |s| && SearchRgb(s, i, loose).Some?
    ensures var m := SearchRgb(s, i, loose).value;
      AllDigits(m.red) && AllDigits(m.green) && AllDigits(m.blue)
    decreases |s| - i
  {
    if MatchRgbAt(s, i, loose).None? {
      MatchDigits(s, i + 1, loose);
    }
  }

  predicate AllDigits(d: string)
  {
    forall k :: 0 <= k < |d| ==> IsDigit(d[k])
  }

  /* ---------- sketchColorToRgba ---------- */

  /** A colour string: trimmed hex forms first, then an `rgb()`/`rgba()` anywhere in the original text. */
  function ParseColorText(color: string): Option<CssColor>
  {
    var hex := ExpandShort(Trim(color));
    match HexDigits(hex, 6)
    case Some(d) => Some(Rgba(Pair(d, 0), Pair(d, 1), Pair(d, 2), AlphaNum(Val(1.0))))
    case None =>
      match HexDigits(hex, 8)
      case Some(d) => Some(Rgba(Pair(d, 0), Pair(d, 1), Pair(d, 2), AlphaNum(Val(Pair(d, 3) as real / 255.0))))
      case None =>
        var m := SearchRgb(color, 0, true);
        if m.None? then None
        else
          MatchDigits(color, 0, true);
          var alpha := if m.value.alpha.Some? then AlphaText(m.value.alpha.value) else AlphaNum(Val(1.0));
          Some(Rgba(DigitsValue(m.value.red), DigitsValue(m.value.green), DigitsValue(m.value.blue), alpha))
  }

  /** A text in none of the hex forms after trimming (and `#rgb` expansion). */
  predicate NotHex(s: string)
  {
    HexDigits(ExpandShort(Trim(s)), 6).None? && HexDigits(ExpandShort(Trim(s)), 8).None?
  }

  /** `sketchColorToRgba` of src/design-api.js. */
  function SketchColorToRgba(color: Color): (r: Option<CssColor>)
    ensures r.Some? ==> r.value.Rgba?
    ensures !ColorPresent(color) || color.OtherObject? ==> r.None?
    ensures color.Components? ==> r.Some? && r.value.a == AlphaNum(if color.alpha.Undefined? then Val(1.0) else color.alpha)
    ensures color.Text? && NotHex(color.s) ==> (r.Some? <==> color.s != "" && SearchRgb(color.s, 0, true).Some?)
  {
    match color
    case NoColor => None
    case OtherObject => None
    case Components(red, green, blue, alpha) =>
      Some(Rgba(Round(red * 255.0), Round(green * 255.0), Round(blue * 255.0),
                AlphaNum(if alpha.Undefined? then Val(1.0) else alpha)))
    case Text(s) =>
      if s == "" then None
      else
        var r := ParseColorText(s);
        assert r.Some? ==> r.value.Rgba?;
        r
  }

  /**
   * Text in no hex form that holds an `rgb()`/`rgba()` is re-emitted with
   * its channels read as decimals and its alpha text kept (1 without one).
   */
  lemma RgbText(s: string, m: RgbMatch)
    requires s != "" && NotHex(s) && SearchRgb(s, 0, true) == Some(m)
    ensures AllDigits(m.red) && AllDigits(m.green) && AllDigits(m.blue)
    ensures SketchColorToRgba(Text(s)) ==
      Some(Rgba(DigitsValue(m.red), DigitsValue(m.green), DigitsValue(m.blue),
                if m.alpha.Some? then AlphaText(m.alpha.value) else AlphaNum(Val(1.0))))
  {
    MatchDigits(s, 0, true);
  }

  /* ---------- parseColorValue ---------- */

  datatype Channels = Channels(r: int, g: int, b: int, a: Alpha)

  const DefaultChannels := Channels(0, 0, 0, AlphaNum(Val(1.0)))

  /**
   * Whether the number JavaScript prints for an alpha slot matches `[\d.]+`:
   * it must be non-negative and printed without an exponent (JavaScript
   * uses one below 1e-6 and from 1e21 on); `null` and text of other
   * characters do not match.
   */
  predicate AlphaMatches(a: Alpha)
  {
    match a
    case AlphaNum(n) => n.Val? && (n.v == 0.0 || (0.000001 <= n.v < 1000000000000000000000.0))
    case AlphaText(t) => |t| > 0 && forall k :: 0 <= k < |t| ==> IsDigit(t[k]) || t[k] == '.'
  }

  /**
   * `parseColorValue`: reads `rgba(r, g, b, a)` text with the strict pattern
   * (no spaces inside the parentheses except after commas). A structured
   * colour stands for the text `rgba(${r}, ${g}, ${b}, ${a})`, whose
   * channels match `\d+` exactly when they are non-negative. Reading the
   * alpha text back as a number is not modelled: it is returned as found.
   */
  function ParseColorValue(c: Option<CssColor>): (v: Channels)
    ensures c.Some? && c.value.Rgba? && v != DefaultChannels ==> v.r == c.value.r && v.g == c.value.g && v.b == c.value.b
    ensures v.r >= 0 && v.g >= 0 && v.b >= 0
    ensures c.Some? && c.value.Rgba? ==>
      (v == Channels(c.value.r, c.value.g, c.value.b, c.value.a) <==>
       c.value.r >= 0 && c.value.g >= 0 && c.value.b >= 0 && AlphaMatches(c.value.a))
    ensures c.None? ==> v == DefaultChannels
    ensures c.Some? && c.value.Literal? && SearchRgb(c.value.text, 0, false).None? ==> v == DefaultChannels
  {
    match c
    case None => DefaultChannels
    case Some(Rgba(r, g, b, a)) =>
      if r >= 0 && g >= 0 && b >= 0 && AlphaMatches(a) then Channels(r, g, b, a) else DefaultChannels
    case Some(Literal(t)) =>
      var m := SearchRgb(t, 0, false);
      if m.None? then DefaultChannels
      else
        MatchDigits(t, 0, false);
        var alpha := if m.value.alpha.Some? then AlphaText(m.value.alpha.value) else AlphaNum(Val(1.0));
        Channels(DigitsValue(m.value.red), DigitsValue(m.value.green), DigitsValue(m.value.blue), alpha)
  }

  /* ---------- properties ---------- */

  lemma NoSpaceTrim(s: string)
    requires forall k :: 0 <= k < |s| ==> !IsJsSpace(s[k])
    ensures Trim(s) == s
  {
  }

  /** Six hex digits, with or without '#', give those bytes and alpha 1. */
  lemma SixDigitHex(s: string, d: string)
    requires |d| == 6 && AllHex(d) && (s == d || s == ['#'] + d)
    ensures SketchColorToRgba(Text(s)) == Some(Rgba(Pair(d, 0), Pair(d, 1), Pair(d, 2), AlphaNum(Val(1.0))))
  {
    assert forall k :: 0 <= k < |s| ==> !IsJsSpace(s[k]) by {
      forall k | 0 <= k < |s| ensures !IsJsSpace(s[k]) {
        if s != d && k > 0 { assert s[k] == d[k - 1]; }
      }
    }
    NoSpaceTrim(s);
    if s != d { assert s[1..] == d; }
  }

  /**
   * Eight hex digits take the last pair as alpha over 255: the digits are
   * read as RRGGBBAA, although the comment above the function names the
   * form #AARRGGBB.
   */
  lemma EightDigitHex(s: string, d: string)
    requires |d| == 8 && AllHex(d) && (s == d || s == ['#'] + d)
    ensures SketchColorToRgba(Text(s)) ==
      Some(Rgba(Pair(d, 0), Pair(d, 1), Pair(d, 2), AlphaNum(Val(Pair(d, 3) as real / 255.0))))
  {
    assert forall k :: 0 <= k < |s| ==> !IsJsSpace(s[k]) by {
      forall k | 0 <= k < |s| ensures !IsJsSpace(s[k]) {
        if s != d && k > 0 { assert s[k] == d[k - 1]; }
      }
    }
    NoSpaceTrim(s);
    if s != d { assert s[1..] == d; }
  }

  /** `#rgb` doubles each digit: channel = 17 * digit. */
  lemma ShortHex(x: char, y: char, z: char)
    requires IsHexDigit(x) && IsHexDigit(y) && IsHexDigit(z)
    ensures SketchColorToRgba(Text(['#', x, y, z])) ==
      Some(Rgba(17 * HexValue(x), 17 * HexValue(y), 17 * HexValue(z), AlphaNum(Val(1.0))))
  {
    var s := ['#', x, y, z];
    NoSpaceTrim(s);
    var h := ['#', x, x, y, y, z, z];
    assert ExpandShort(Trim(s)) == h;
    assert h[1..] == [x, x, y, y, z, z];
  }

  /** Component objects are scaled to 0..255 with `Math.round`; a missing alpha is 1. */
  lemma ComponentColor(red: real, green: real, blue: real)
    requires 0.0 <= red <= 1.0 && 0.0 <= green <= 1.0 && 0.0 <= blue <= 1.0
    ensures var c := SketchColorToRgba(Components(red, green, blue, Undefined));
      c.Some? && c.value.Rgba? && 0 <= c.value.r <= 255 && 0 <= c.value.g <= 255 && 0 <= c.value.b <= 255 &&
      c.value.a == AlphaNum(Val(1.0))
  {
  }

  /** The channels a structured colour carries. */
  function SketchChannels(c: CssColor): Channels
    requires c.Rgba?
  {
    Channels(c.r, c.g, c.b, c.a)
  }

  /** `parseColorValue` reads back the channels of every `#rgb` colour. */
  lemma ShortHexRoundTrip(x: char, y: char, z: char)
    requires IsHexDigit(x) && IsHexDigit(y) && IsHexDigit(z)
    ensures ParseColorValue(SketchColorToRgba(Text(['#', x, y, z]))) ==
      Channels(17 * HexValue(x), 17 * HexValue(y), 17 * HexValue(z), AlphaNum(Val(1.0)))
  {
    ShortHex(x, y, z);
  }

  /** `parseColorValue` reads back the channels of every hex-derived colour. */
  lemma {:induction false} HexRoundTrip(s: string, d: string)
    requires (|d| == 6 || |d| == 8) && AllHex(d) && (s == d || s == ['#'] + d)
    ensures ParseColorValue(SketchColorToRgba(Text(s))).r == Pair(d, 0)
    ensures ParseColorValue(SketchColorToRgba(Text(s))).g == Pair(d, 1)
    ensures ParseColorValue(SketchColorToRgba(Text(s))).b == Pair(d, 2)
    ensures ParseColorValue(SketchColorToRgba(Text(s))) == SketchChannels(SketchColorToRgba(Text(s)).value)
  {
    if |d| == 6 {
      SixDigitHex(s, d);
    } else {
      EightDigitHex(s, d);
      var p := Pair(d, 3);
      assert 0.0 <= p as real / 255.0;
      if p > 0 {
        assert p as real / 255.0 >= 1.0 / 255.0;
      }
    }
  }
}
