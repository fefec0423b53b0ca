/** Colour parsing and luminance of `src/utils/color.ts`: a CSS colour string
    (hex, `rgb(…)`, `rgba(…)` or a colour name) becomes channels in [0, 1]
    and an alpha; a colour's luminance is taken after compositing it over a
    background. */
module Color {
  import opened Wrappers
  import opened JsString
  import GlMath

  datatype RGB = RGB(r: real, g: real, b: real)

  datatype RGBA = RGBA(r: real, g: real, b: real, a: real)

  /** `stripHash`: drops one leading '#', if there is one. */
  function StripHash(s: string): (t: string)
    ensures |s| > 0 && s[0] == '#' ==> t == s[1..]
    ensures (|s| == 0 || s[0] != '#') ==> t == s
  {
    if |s| > 0 && s[0] == '#' then s[1..] else s
  }

  predicate AllHex(s: string)
  {
    forall k :: 0 <= k < |s| ==> IsHexDigit(s[k])
  }

  /** `/^([A-Fa-f0-9]{3}){1,2}$/` on the string without its hash. */
  predicate IsValidHex(s: string)
  {
    var t := StripHash(s);
    (|t| == 3 || |t| == 6) && AllHex(t)
  }

  /** The three-digit shorthand written out: "abc" becomes "aabbcc". */
  function Doubled(t: string): (d: string)
    requires |t| == 3
    ensures |d| == 6
  {
    [t[0], t[0], t[1], t[1], t[2], t[2]]
  }

  /** The six digits after the `0x` of `formatHexString`. */
  function FormatHexString(s: string): (digits: string)
    requires IsValidHex(s)
    ensures |digits| == 6 && AllHex(digits)
  {
    var t := StripHash(s);
    if |t| == 6 then t else Doubled(t)
  }

  /** `hexStringToRGBA`: the string "0x…" converts to its number, whose three
      bytes, high to low, become r, g and b over 255. */
  function HexStringToRGBA(digits: string): RGBA
    requires |digits| == 6 && AllHex(digits)
  {
    var n := HexValue(digits);
    RGBA(((n / 65536) % 256) as real / 255.0, ((n / 256) % 256) as real / 255.0, (n % 256) as real / 255.0, 1.0)
  }

  /** `HexToRGBA`: `undefined` (here `None`) for anything but a valid hex code. */
  function HexToRGBA(s: string): (r: Option<RGBA>)
    ensures r.Some? <==> IsValidHex(s)
  {
    if !IsValidHex(s) then None else Some(HexStringToRGBA(FormatHexString(s)))
  }

  /** The byte two hex digits spell. */
  function Byte(hi: char, lo: char): (v: nat)
    requires IsHexDigit(hi) && IsHexDigit(lo)
    ensures v < 256
  {
    16 * HexDigitValue(hi) + HexDigitValue(lo)
  }

  /** Six hex digits are three bytes, high to low. */
  lemma SixDigits(d: string)
    requires |d| == 6 && AllHex(d)
    ensures HexValue(d) == Byte(d[0], d[1]) * 65536 + Byte(d[2], d[3]) * 256 + Byte(d[4], d[5])
  {
    assert d[..5][..4] == d[..4] && d[..4][..3] == d[..3] && d[..3][..2] == d[..2];
    assert d[..2][..1] == d[..1] && d[..1][..0] == [];
    assert HexValue(d[..1]) == HexDigitValue(d[0]);
    assert HexValue(d[..2]) == 16 * HexDigitValue(d[0]) + HexDigitValue(d[1]);
    assert HexValue(d[..3]) == 16 * HexValue(d[..2]) + HexDigitValue(d[2]);
    assert HexValue(d[..4]) == 16 * HexValue(d[..3]) + HexDigitValue(d[3]);
    assert HexValue(d[..5]) == 16 * HexValue(d[..4]) + HexDigitValue(d[4]);
    assert HexValue(d) == 16 * HexValue(d[..5]) + HexDigitValue(d[5]);
  }

  /** Dividing by 256 splits off the low byte. */
  lemma Split256(q: nat, r: nat)
    requires r < 256
    ensures (q * 256 + r) / 256 == q && (q * 256 + r) % 256 == r
  {
  }

  /** The three bytes of a 24-bit number come back out of `>>` and `% 256`. */
  lemma ThreeBytes(hi: nat, mid: nat, lo: nat)
    requires hi < 256 && mid < 256 && lo < 256
    ensures var n := hi * 65536 + mid * 256 + lo;
            (n / 65536) % 256 == hi && (n / 256) % 256 == mid && n % 256 == lo
  {
    var n := hi * 65536 + mid * 256 + lo;
    assert n == (hi * 256 + mid) * 256 + lo;
    Split256(hi * 256 + mid, lo);
    Split256(hi, mid);
    Split256(0, hi);
    assert n == hi * 65536 + (mid * 256 + lo);
    assert mid * 256 + lo < 65536;
  }

  /** Each channel of a hex colour is the byte its two digits spell, over 255,
      so it lies in [0, 1]; alpha is 1. */
  lemma HexChannels(s: string)
    requires IsValidHex(s)
    ensures var d := FormatHexString(s);
            var c := HexToRGBA(s).value;
            && c.r == Byte(d[0], d[1]) as real / 255.0
            && c.g == Byte(d[2], d[3]) as real / 255.0
            && c.b == Byte(d[4], d[5]) as real / 255.0
            && c.a == 1.0
            && 0.0 <= c.r <= 1.0 && 0.0 <= c.g <= 1.0 && 0.0 <= c.b <= 1.0
  {
    var d := FormatHexString(s);
    SixDigits(d);
    ThreeBytes(Byte(d[0], d[1]), Byte(d[2], d[3]), Byte(d[4], d[5]));
  }

  /** The shorthand is the doubled long form: "#abc" reads as "#aabbcc". */
  lemma ShorthandIsDoubled(t: string)
    requires |t| == 3 && AllHex(t)
    ensures HexToRGBA("#" + t) == HexToRGBA("#" + Doubled(t))
    ensures HexToRGBA(t) == HexToRGBA("#" + t)
  {
    assert StripHash("#" + t) == t;
    assert StripHash("#" + Doubled(t)) == Doubled(t);
  }

  /** Only one '#' is stripped, so a second one makes the code invalid. */
  lemma SecondHashRejected(s: string)
    requires |s| >= 2 && s[0] == '#' && s[1] == '#'
    ensures HexToRGBA(s) == None
  {
    assert StripHash(s)[0] == '#';
  }

  /** The length of the run of decimal digits starting at `i`. */
  function DigitRun(s: string, i: nat): (n: nat)
    requires i <= |s|
    ensures i + n <= |s|
    ensures forall k :: i <= k < i + n ==> IsDigit(s[k])
    ensures i + n < |s| ==> !IsDigit(s[i + n])
    decreases |s| - i
  {
    if i < |s| && IsDigit(s[i]) then 1 + DigitRun(s, i + 1) else 0
  }

  /** `parseInt` of the `n` digits at `i`. */
  function DigitsValue(s: string, i: nat, n: nat): nat
    requires i + n <= |s| && forall k :: i <= k < i + n ==> IsDigit(s[k])
  {
    if n == 0 then 0 else 10 * DigitsValue(s, i, n - 1) + DigitValue(s[i + n - 1])
  }

  /** The tokens of the two colour regular expressions: a literal character,
      a captured `(\d{1,3})`, and the captured alpha `(0\.[0-9]+|[0-1])`. */
  datatype Token = Char(c: char) | Digits | AlphaValue

  /** Matches `pattern` at position `i`; the result is the captured groups,
      each already read by `parseInt`, and where the match ends. In both
      patterns a capture is followed by a literal that is not a digit, so
      `\d{1,3}` and `[0-9]+` can only end where the run of digits ends; the
      alpha alternatives are tried in order, the second only when the rest of
      the pattern fails after the first. */
  function Match(s: string, i: nat, pattern: seq<Token>): (m: Option<(seq<nat>, nat)>)
    requires i <= |s|
    ensures m.Some? ==> i <= m.value.1 <= |s|
    decreases |pattern|
  {
    if pattern == [] then Some(([], i))
    else
      var rest := pattern[1..];
      match pattern[0]
      case Char(c) =>
        if i < |s| && s[i] == c then Match(s, i + 1, rest) else None
      case Digits =>
        var n := DigitRun(s, i);
        if 1 <= n <= 3 then Capture(DigitsValue(s, i, n), Match(s, i + n, rest)) else None
      case AlphaValue =>
        var fraction :=
          if i + 2 <= |s| && s[i] == '0' && s[i + 1] == '.' && DigitRun(s, i + 2) >= 1
          then Capture(0, Match(s, i + 2 + DigitRun(s, i + 2), rest))
          else None;
        if fraction.Some? then fraction
        else if i < |s| && (s[i] == '0' || s[i] == '1') then
          Capture(if s[i] == '1' then 1 else 0, Match(s, i + 1, rest))
        else None
  }

  function Capture(v: nat, m: Option<(seq<nat>, nat)>): (r: Option<(seq<nat>, nat)>)
    ensures r.Some? <==> m.Some?
    ensures r.Some? ==> r.value == ([v] + m.value.0, m.value.1)
  {
    if m.None? then None else Some(([v] + m.value.0, m.value.1))
  }

  /** A literal run of characters. */
  function Lit(w: string): (p: seq<Token>)
    ensures |p| == |w| && forall k :: 0 <= k < |p| ==> p[k] == Char(w[k])
  {
    seq(|w|, k requires 0 <= k < |w| => Char(w[k]))
  }

  /** `rgb\((\d{1,3}), (\d{1,3}), (\d{1,3})\)` */
  const RGB_PATTERN: seq<Token> :=
    Lit("rgb(") + [Digits] + Lit(", ") + [Digits] + Lit(", ") + [Digits] + Lit(")")

  /** `rgba\((\d{1,3}), (\d{1,3}), (\d{1,3}), (0\.[0-9]+|[0-1])\)` */
  const RGBA_PATTERN: seq<Token> :=
    Lit("rgba(") + [Digits] + Lit(", ") + [Digits] + Lit(", ") + [Digits] + Lit(", ") + [AlphaValue] + Lit(")")

  /** Each capture adds one group. */
  function Groups(pattern: seq<Token>): nat
  {
    if pattern == [] then 0 else (if pattern[0].Char? then 0 else 1) + Groups(pattern[1..])
  }

  lemma {:induction false} GroupsAppend(a: seq<Token>, b: seq<Token>)
    ensures Groups(a + b) == Groups(a) + Groups(b)
  {
    if a != [] {
      assert (a + b)[1..] == a[1..] + b;
      GroupsAppend(a[1..], b);
    } else {
      assert a + b == b;
    }
  }

  lemma {:induction false} LitGroups(w: string)
    ensures Groups(Lit(w)) == 0
  {
    if w != [] {
      assert Lit(w)[1..] == Lit(w[1..]);
      LitGroups(w[1..]);
    }
  }

  /** A capture followed by a literal separator adds one group. */
  lemma FieldGroups(x: seq<Token>, t: Token, w: string)
    requires !t.Char?
    ensures Groups(x + [t] + Lit(w)) == Groups(x) + 1
  {
    assert Groups([t]) == 1 by {
      assert [t][1..] == [];
    }
    GroupsAppend(x, [t]);
    GroupsAppend(x + [t], Lit(w));
    LitGroups(w);
  }

  /** Three groups in `rgb(…)`. */
  lemma RGBGroups()
    ensures Groups(RGB_PATTERN) == 3
  {
    var c1 := Lit("rgb(") + [Digits] + Lit(", ");
    var c2 := c1 + [Digits] + Lit(", ");
    LitGroups("rgb(");
    FieldGroups(Lit("rgb("), Digits, ", ");
    FieldGroups(c1, Digits, ", ");
    FieldGroups(c2, Digits, ")");
  }

  /** Four groups in `rgba(…)`. */
  lemma RGBAGroups()
    ensures Groups(RGBA_PATTERN) == 4
  {
    var c1 := Lit("rgba(") + [Digits] + Lit(", ");
    var c2 := c1 + [Digits] + Lit(", ");
    var c3 := c2 + [Digits] + Lit(", ");
    LitGroups("rgba(");
    FieldGroups(Lit("rgba("), Digits, ", ");
    FieldGroups(c1, Digits, ", ");
    FieldGroups(c2, Digits, ", ");
    FieldGroups(c3, AlphaValue, ")");
  }

  lemma {:induction false} MatchGroups(s: string, i: nat, pattern: seq<Token>)
    requires i <= |s| && Match(s, i, pattern).Some?
    ensures |Match(s, i, pattern).value.0| == Groups(pattern)
    decreases |pattern|
  {
    if pattern != [] {
      var rest := pattern[1..];
      match pattern[0]
      case Char(c) => MatchGroups(s, i + 1, rest);
      case Digits => MatchGroups(s, i + DigitRun(s, i), rest);
      case AlphaValue =>
        if i + 2 <= |s| && s[i] == '0' && s[i + 1] == '.' && DigitRun(s, i + 2) >= 1
           && Match(s, i + 2 + DigitRun(s, i + 2), rest).Some? {
          MatchGroups(s, i + 2 + DigitRun(s, i + 2), rest);
        } else {
          MatchGroups(s, i + 1, rest);
        }
    }
  }

  /** The leftmost match at or after `from`, as `RegExp.exec` finds it: its
      start and its groups. */
  function Find(s: string, from: nat, pattern: seq<Token>): (m: Option<(nat, seq<nat>)>)
    requires from <= |s|
    ensures m.Some? ==> from <= m.value.0 <= |s| && Match(s, m.value.0, pattern).Some?
    ensures m.Some? ==> m.value.1 == Match(s, m.value.0, pattern).value.0
    ensures m.Some? ==> forall j :: from <= j < m.value.0 ==> Match(s, j, pattern).None?
    ensures m.None? ==> forall j :: from <= j <= |s| ==> Match(s, j, pattern).None?
    decreases |s| - from
  {
    var here := Match(s, from, pattern);
    if here.Some? then Some((from, here.value.0))
    else if from == |s| then None
    else Find(s, from + 1, pattern)
  }

  /** `normalize8Bit` on each captured component; alpha 1. */
  function Normalized(groups: seq<nat>): RGBA
    requires |groups| >= 3
  {
    RGBA(groups[0] as real / 255.0, groups[1] as real / 255.0, groups[2] as real / 255.0, 1.0)
  }

  /** `RGBStringToRGBA`: the first `rgb(…)` anywhere in the string (the
      pattern is not anchored); each component over 255, with no check that it
      is at most 255; alpha 1. */
  function RGBStringToRGBA(s: string): (c: Option<RGBA>)
    ensures c.Some? <==> exists j :: 0 <= j <= |s| && Match(s, j, RGB_PATTERN).Some?
    ensures c.Some? ==> c.value.a == 1.0 && 0.0 <= c.value.r && 0.0 <= c.value.g && 0.0 <= c.value.b
  {
    match Find(s, 0, RGB_PATTERN)
    case None => None
    case Some((start, groups)) =>
      MatchGroups(s, start, RGB_PATTERN);
      RGBGroups();
      Some(Normalized(groups))
  }

  /** `RGBAStringToRGBA`: like `rgb(…)`, and the alpha, read by `parseInt`,
      goes through `/ 255` and back through `* 255`, so it is 0 or 1. */
  function RGBAStringToRGBA(s: string): (c: Option<RGBA>)
    ensures c.Some? <==> exists j :: 0 <= j <= |s| && Match(s, j, RGBA_PATTERN).Some?
    ensures c.Some? ==> 0.0 <= c.value.r && 0.0 <= c.value.g && 0.0 <= c.value.b && 0.0 <= c.value.a
  {
    match Find(s, 0, RGBA_PATTERN)
    case None => None
    case Some((start, groups)) =>
      MatchGroups(s, start, RGBA_PATTERN);
      RGBAGroups();
      Some(Normalized(groups).(a := (groups[3] as real / 255.0) * 255.0))
  }

  /** `parseColorFromString`: hex, then `rgb(…)`, then `rgba(…)`, then the
      browser's reading of a colour name (`named`, which needs the DOM); the
      first that succeeds wins. */
  function ParseColorFromString(s: string, named: string -> Option<RGBA>): (c: Option<RGBA>)
    ensures IsValidHex(s) ==> c == HexToRGBA(s)
    ensures !IsValidHex(s) && RGBStringToRGBA(s).Some? ==> c == RGBStringToRGBA(s)
    ensures !IsValidHex(s) && RGBStringToRGBA(s).None? && RGBAStringToRGBA(s).Some? ==> c == RGBAStringToRGBA(s)
    ensures !IsValidHex(s) && RGBStringToRGBA(s).None? && RGBAStringToRGBA(s).None? ==> c == named(s)
    ensures c.None? ==> named(s).None?
  {
    var hex := HexToRGBA(s);
    if hex.Some? then hex
    else
      var rgb := RGBStringToRGBA(s);
      if rgb.Some? then rgb
      else
        var rgba := RGBAStringToRGBA(s);
        if rgba.Some? then rgba else named(s)
  }

  /** Once one of the three parsers accepts the string, the colour-name
      lookup is never consulted. */
  lemma ParsedWithoutNames(s: string, named: string -> Option<RGBA>, other: string -> Option<RGBA>)
    requires HexToRGBA(s).Some? || RGBStringToRGBA(s).Some? || RGBAStringToRGBA(s).Some?
    ensures ParseColorFromString(s, named) == ParseColorFromString(s, other)
  {
  }

  /** `interpolateRGBColors`: each channel interpolated separately. */
  function InterpolateRGBColors(source: RGB, target: RGB, amount: real): RGB
  {
    RGB(GlMath.Interpolate(source.r, target.r, amount), GlMath.Interpolate(source.g, target.g, amount),
        GlMath.Interpolate(source.b, target.b, amount))
  }

  /** The weighted channel sum of `luminanceFromRGBA`. */
  function WeightedSum(c: RGB): real
  {
    0.2126 * c.r + 0.7152 * c.g + 0.0722 * c.b
  }

  /** `luminanceFromRGBA`: the colour composited over the background by its
      alpha, then weighted. */
  function LuminanceFromRGBA(c: RGBA, background: RGB): real
  {
    WeightedSum(InterpolateRGBColors(background, RGB(c.r, c.g, c.b), c.a))
  }

  /** Compositing and weighting commute: the luminance is the background's
      and the colour's luminances mixed by alpha, so alpha 1 gives the
      colour's own and alpha 0 the background's. */
  lemma LuminanceComposites(c: RGBA, background: RGB)
    ensures LuminanceFromRGBA(c, background)
            == GlMath.Interpolate(WeightedSum(background), WeightedSum(RGB(c.r, c.g, c.b)), c.a)
    ensures c.a == 1.0 ==> LuminanceFromRGBA(c, background) == WeightedSum(RGB(c.r, c.g, c.b))
    ensures c.a == 0.0 ==> LuminanceFromRGBA(c, background) == WeightedSum(background)
  {
  }
}
