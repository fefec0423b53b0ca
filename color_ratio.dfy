/** The contrast calculator of `ColorRatioCalc.tsx`: a luminance taken as
    the plain weighted sum 0.2126 r + 0.7152 g + 0.0722 b of the unconverted
    channels (not the linearised relative luminance of WCAG 2.1), the
    WCAG 2.1 ratio formula (L1 + 0.05) / (L2 + 0.05) applied to it, the
    thresholds of levels AA and AAA, and the search that darkens or
    lightens the background, one HSL lightness step at a time, until the
    ratio is met. `RGBToHSL` and `HSLToRGB`, which the component imports but
    `color.ts` does not define, are passed in as `toHsl` and `toRgb`. */
module ColorRatioCalc {
  import opened Wrappers
  import Color

  /** `COMPLIANCE_LEVEL`. */
  datatype ComplianceLevel = NONE | A | AA | AAA

  /** Hue, saturation, and lightness on a 0–100 scale. */
  datatype HSL = HSL(h: real, s: real, l: real)

  /** `minComplianceRatio[level]`: only AA and AAA have an entry. */
  function MinComplianceRatio(level: ComplianceLevel): (r: Option<real>)
    ensures r.Some? <==> level == AA || level == AAA
    ensures r.Some? ==> r.value >= 4.5
    ensures level == AA ==> r == Some(4.5)
    ensures level == AAA ==> r == Some(7.0)
  {
    match level
    case AA => Some(4.5)
    case AAA => Some(7.0)
    case _ => None
  }

  /** `luminance`: the weighted channel sum. */
  function Luminance(c: Color.RGB): (lum: real)
    ensures 0.0 <= c.r <= 1.0 && 0.0 <= c.g <= 1.0 && 0.0 <= c.b <= 1.0 ==> 0.0 <= lum <= 1.0
    ensures c.r == c.g == c.b ==> lum == c.r
  {
    c.r * 0.2126 + c.g * 0.7152 + c.b * 0.0722
  }

  /** This luminance is the one `luminanceFromRGBA` gives an opaque colour,
      whatever the background. */
  lemma LuminanceOfOpaque(c: Color.RGB, background: Color.RGB)
    ensures Luminance(c) == Color.LuminanceFromRGBA(Color.RGBA(c.r, c.g, c.b, 1.0), background)
  {
    Color.LuminanceComposites(Color.RGBA(c.r, c.g, c.b, 1.0), background);
  }

  /** A luminance the ratio can divide by: `lum + 0.05` is positive. */
  predicate Defined(lum: real)
  {
    lum + 0.05 > 0.0
  }

  /** `contrastRatio`: the lighter luminance plus 0.05 over the darker one
      plus 0.05, so never below 1. */
  function ContrastRatio(bgLum: real, fgLum: real): (r: real)
    requires Defined(bgLum) && Defined(fgLum)
    ensures r >= 1.0
    ensures bgLum >= fgLum ==> r == (bgLum + 0.05) / (fgLum + 0.05)
    ensures fgLum >= bgLum ==> r == (fgLum + 0.05) / (bgLum + 0.05)
  {
    var l1 := bgLum + 0.05;
    var l2 := fgLum + 0.05;
    var ratio := l1 / l2;
    if l2 > l1 then 1.0 / ratio else ratio
  }

  /** The ratio does not depend on which colour is the background. */
  lemma ContrastRatioSymmetric(a: real, b: real)
    requires Defined(a) && Defined(b)
    ensures ContrastRatio(a, b) == ContrastRatio(b, a)
  {
  }

  /** `checkContrast`: `Math.abs(ratio) >= targetRatio`; comparing with an
      `undefined` target is false. */
  function CheckContrast(bg: real, fg: real, target: Option<real>): (ok: bool)
    requires Defined(bg) && Defined(fg)
    ensures ok <==> target.Some? && ContrastRatio(bg, fg) >= target.value
  {
    var ratio := ContrastRatio(bg, fg);
    target.Some? && (if ratio < 0.0 then -ratio else ratio) >= target.value
  }

  /** The loop condition of `shift`: the target is not met and the lightness
      is still within [0, 100]. */
  predicate Continues(l: real, fgl: real, target: Option<real>)
    requires Defined(l / 100.0) && Defined(fgl / 100.0)
  {
    !CheckContrast(l / 100.0, fgl / 100.0, target) && l <= 100.0 && l >= 0.0
  }

  /** The lightness after `k` steps in the chosen direction. */
  function Step(l0: real, k: nat, up: bool): real
  {
    if up then l0 + k as real else l0 - k as real
  }

  /** How many more steps can keep the lightness within [0, 100]. */
  function Room(l: real, up: bool): nat
  {
    if up then (if l <= 100.0 then (101.0 - l).Floor else 0)
    else (if l >= 0.0 then (l + 1.0).Floor else 0)
  }

  /** The lightness `shift` stops at, starting from `l`. */
  function ShiftedLightness(l: real, fgl: real, target: Option<real>, up: bool): (r: real)
    requires Defined(l / 100.0) && Defined(fgl / 100.0)
    ensures Defined(r / 100.0)
    decreases Room(l, up)
  {
    if Continues(l, fgl, target) then ShiftedLightness(Step(l, 1, up), fgl, target, up) else l
  }

  /** `shift` stops at the first lightness that meets the target or leaves
      [0, 100]: it moves exactly one unit per step, in one direction, every
      lightness it passed failed the target, and there are at most 101 steps
      from a lightness in [0, 100]. */
  lemma {:induction false} ShiftSteps(l: real, fgl: real, target: Option<real>, up: bool) returns (k: nat)
    requires Defined(l / 100.0) && Defined(fgl / 100.0)
    ensures ShiftedLightness(l, fgl, target, up) == Step(l, k, up)
    ensures forall j :: 0 <= j < k ==> Defined(Step(l, j, up) / 100.0) && Continues(Step(l, j, up), fgl, target)
    ensures Defined(Step(l, k, up) / 100.0) && !Continues(Step(l, k, up), fgl, target)
    ensures k <= Room(l, up)
    ensures 0.0 <= l <= 100.0 ==> k <= 101
    decreases Room(l, up)
  {
    if Continues(l, fgl, target) {
      var next := Step(l, 1, up);
      var k' := ShiftSteps(next, fgl, target, up);
      k := k' + 1;
      forall j | 0 <= j < k
        ensures Defined(Step(l, j, up) / 100.0) && Continues(Step(l, j, up), fgl, target)
      {
        if j > 0 {
          assert Step(l, j, up) == Step(next, j - 1, up);
        }
      }
      assert Step(l, k, up) == Step(next, k', up);
    } else {
      k := 0;
      assert Step(l, 0, up) == l;
    }
  }

  /** The stopping lightness meets the target, or lies just outside
      [0, 100]. */
  lemma ShiftStops(l: real, fgl: real, target: Option<real>, up: bool)
    requires 0.0 <= l <= 100.0 && Defined(fgl / 100.0)
    ensures var r := ShiftedLightness(l, fgl, target, up);
            CheckContrast(r / 100.0, fgl / 100.0, target) || (up && 100.0 < r <= 101.0) || (!up && -1.0 <= r < 0.0)
  {
    var k := ShiftSteps(l, fgl, target, up);
    if k > 0 {
      assert Continues(Step(l, k - 1, up), fgl, target);
    }
  }

  /** `shift`: lightens the background when it is lighter than the
      foreground, darkens it otherwise (a tie included), one unit of HSL
      lightness at a time, while the HSL lightnesses over 100 fail the
      target and the lightness is within [0, 100]. */
  method Shift(bg: Color.RGB, fg: Color.RGB, target: Option<real>, toHsl: Color.RGB -> HSL, toRgb: HSL -> Color.RGB)
    returns (c: Color.RGB)
    requires Defined(toHsl(bg).l / 100.0) && Defined(toHsl(fg).l / 100.0)
    ensures var start := toHsl(bg);
            c == toRgb(start.(l := ShiftedLightness(start.l, toHsl(fg).l, target, start.l > toHsl(fg).l)))
  {
    var bghsl := toHsl(bg);
    var fghsl := toHsl(fg);
    var up := bghsl.l > fghsl.l;
    ghost var start := bghsl;
    while !CheckContrast(bghsl.l / 100.0, fghsl.l / 100.0, target) && bghsl.l <= 100.0 && bghsl.l >= 0.0
      invariant Defined(bghsl.l / 100.0)
      invariant bghsl == start.(l := bghsl.l)
      invariant ShiftedLightness(bghsl.l, fghsl.l, target, up) == ShiftedLightness(start.l, fghsl.l, target, up)
      decreases Room(bghsl.l, up)
    {
      if up {
        bghsl := bghsl.(l := bghsl.l + 1.0);
      } else {
        bghsl := bghsl.(l := bghsl.l - 1.0);
      }
    }
    c := toRgb(bghsl);
  }

  /** What `toHsl` must give for `makeColorAccessible` to compute a ratio. */
  predicate Computable(bg: Color.RGB, fg: Color.RGB, toHsl: Color.RGB -> HSL)
  {
    && Defined(Luminance(bg)) && Defined(Luminance(fg))
    && Defined(toHsl(bg).l / 100.0) && Defined(toHsl(fg).l / 100.0)
  }

  /** The background `shift` returns, as a value. */
  function Shifted(bg: Color.RGB, fg: Color.RGB, target: Option<real>, toHsl: Color.RGB -> HSL, toRgb: HSL -> Color.RGB): Color.RGB
    requires Defined(toHsl(bg).l / 100.0) && Defined(toHsl(fg).l / 100.0)
  {
    var start := toHsl(bg);
    toRgb(start.(l := ShiftedLightness(start.l, toHsl(fg).l, target, start.l > toHsl(fg).l)))
  }

  /** `makeColorAccessible`: the background itself for level NONE or when
      its ratio with the foreground already meets the level's target;
      otherwise the shifted background. */
  function MakeColorAccessible(bg: Color.RGB, fg: Color.RGB, level: ComplianceLevel,
                               toHsl: Color.RGB -> HSL, toRgb: HSL -> Color.RGB): (c: Color.RGB)
    requires level != NONE ==> Computable(bg, fg, toHsl)
    ensures level == NONE ==> c == bg
    ensures level != NONE && CheckContrast(Luminance(bg), Luminance(fg), MinComplianceRatio(level)) ==> c == bg
    ensures level != NONE && !CheckContrast(Luminance(bg), Luminance(fg), MinComplianceRatio(level))
            ==> c == Shifted(bg, fg, MinComplianceRatio(level), toHsl, toRgb)
  {
    if level == NONE then bg
    else
      var ratio := ContrastRatio(Luminance(bg), Luminance(fg));
      var target := MinComplianceRatio(level);
      if target.Some? && ratio >= target.value then bg
      else Shifted(bg, fg, target, toHsl, toRgb)
  }

  /** Level A has no target, so no ratio ever meets it: the search runs until
      the lightness leaves [0, 100]. */
  lemma LevelASearchesToTheEnd(bg: Color.RGB, fg: Color.RGB, toHsl: Color.RGB -> HSL)
    requires 0.0 <= toHsl(bg).l <= 100.0 && Defined(toHsl(fg).l / 100.0)
    ensures var r := ShiftedLightness(toHsl(bg).l, toHsl(fg).l, MinComplianceRatio(A), toHsl(bg).l > toHsl(fg).l);
            r < 0.0 || r > 100.0
  {
    ShiftStops(toHsl(bg).l, toHsl(fg).l, MinComplianceRatio(A), toHsl(bg).l > toHsl(fg).l);
  }

  /** `a / x` is below `b` once `x` is large enough. */
  lemma QuotientBelow(a: real, x: real, b: real)
    requires a > 0.0 && b > 0.0 && x * b > a
    ensures a / x < b
  {
    assert x > 0.0;
    assert a / x * x == a;
  }

  /** Against HSL lightness 50, with the AA target, every lightness from 8
      to 45 fails the check and 7 passes it. */
  lemma {:induction false} DarkensToSeven(n: nat)
    requires 7 <= n <= 45
    ensures ShiftedLightness(n as real, 50.0, Some(4.5), false) == 7.0
    decreases n
  {
    var l := n as real;
    if n > 7 {
      assert ContrastRatio(l / 100.0, 0.5) == 0.55 / (l / 100.0 + 0.05);
      QuotientBelow(0.55, l / 100.0 + 0.05, 4.5);
      assert Continues(l, 50.0, Some(4.5));
      assert Step(l, 1, false) == (n - 1) as real;
      DarkensToSeven(n - 1);
    } else {
      assert ContrastRatio(0.07, 0.5) == 0.55 / 0.12;
    }
  }

  /** The search tests HSL lightness over 100 in place of the luminance, so
      the colour it returns can fail the very ratio that sent it searching:
      a grey background of luminance 0.45 behind pure blue (HSL lightness
      50, luminance 0.0722) has ratio about 4.09, below AA; the search darkens
      it to lightness 7, whose grey has ratio about 1.02 with the blue. */
  lemma ShiftedColourCanFail(bg: Color.RGB, fg: Color.RGB, toHsl: Color.RGB -> HSL, toRgb: HSL -> Color.RGB)
    requires bg == Color.RGB(0.45, 0.45, 0.45) && fg == Color.RGB(0.0, 0.0, 1.0)
    requires toHsl(bg) == HSL(0.0, 0.0, 45.0) && toHsl(fg) == HSL(240.0, 100.0, 50.0)
    requires toRgb(HSL(0.0, 0.0, 7.0)) == Color.RGB(0.07, 0.07, 0.07)
    ensures !CheckContrast(Luminance(bg), Luminance(fg), Some(4.5))
    ensures MakeColorAccessible(bg, fg, AA, toHsl, toRgb) == Color.RGB(0.07, 0.07, 0.07)
    ensures !CheckContrast(Luminance(Color.RGB(0.07, 0.07, 0.07)), Luminance(fg), Some(4.5))
  {
    assert Luminance(bg) == 0.45 && Luminance(fg) == 0.0722;
    QuotientBelow(0.5, 0.1222, 4.5);
    DarkensToSeven(45);
    QuotientBelow(0.1222, 0.12, 4.5);
  }
}
