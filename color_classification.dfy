/** The colour classifier that robotPeriodic runs on every sample it takes:
    an RGB reading becomes a hue in degrees and a saturation, and an ordered,
    first-match-wins cascade turns brightness, saturation and hue into one
    label of a fixed set. Channels and all arithmetic are exact reals; the
    classifier itself is total and needs nothing of its input. */
module ColorClassification {

  /** One reading of the sensor's three normalised channel intensities. */
  datatype Rgb = Rgb(red: real, green: real, blue: real)

  /** The labels the cascade can produce; Unknown is the initial value of the
      label variable, kept when no branch fires. */
  datatype ColorLabel = BlackDark | White | Red | Yellow | Green | Cyan | Blue | Purple | Unknown

  /** What one classification produces besides the raw channels. */
  datatype Classification = Classification(hue: real, saturation: real, color: ColorLabel)

  /** The sensor reports intensities, never negative ones. */
  predicate NonNegative(c: Rgb)
  {
    c.red >= 0.0 && c.green >= 0.0 && c.blue >= 0.0
  }

  // ---------------------------------------------------------------------
  // Maximum, minimum and spread of the channels
  // ---------------------------------------------------------------------

  /** Math.max and Math.min on two values (NaN does not arise on reals). */
  function Max(a: real, b: real): real { if a >= b then a else b }
  function Min(a: real, b: real): real { if a <= b then a else b }

  /** The brightest channel: one of the three, and no channel exceeds it. */
  function MaxChannel(c: Rgb): (m: real)
    ensures m == c.red || m == c.green || m == c.blue
    ensures c.red <= m && c.green <= m && c.blue <= m
  {
    Max(c.red, Max(c.green, c.blue))
  }

  /** The dimmest channel: one of the three, and no channel is below it. */
  function MinChannel(c: Rgb): (m: real)
    ensures m == c.red || m == c.green || m == c.blue
    ensures m <= c.red && m <= c.green && m <= c.blue
  {
    Min(c.red, Min(c.green, c.blue))
  }

  /** The spread between brightest and dimmest channel; zero exactly when
      the three channels are equal. */
  function Delta(c: Rgb): (d: real)
    ensures d >= 0.0
    ensures d == 0.0 <==> c.red == c.green == c.blue
  {
    MaxChannel(c) - MinChannel(c)
  }

  // ---------------------------------------------------------------------
  // Java's floating-point remainder
  // ---------------------------------------------------------------------

  /** Rounding toward zero: the quotient Java's floating-point `%` uses. */
  function Truncate(x: real): (n: int)
    ensures x >= 0.0 ==> 0 <= n && n as real <= x < n as real + 1.0
    ensures x < 0.0 ==> n <= 0 && n as real - 1.0 < x <= n as real
  {
    if x >= 0.0 then x.Floor else -((-x).Floor)
  }

  /** Java's `x % 6` on doubles: what is left after taking away the multiple
      of 6 that truncated division finds. The remainder keeps the sign of the
      dividend, is smaller than 6 in magnitude, and leaves a dividend already
      inside (-6, 6) as it is. */
  function Rem6(x: real): (r: real)
    ensures x >= 0.0 ==> 0.0 <= r < 6.0
    ensures x < 0.0 ==> -6.0 < r <= 0.0
    ensures -6.0 < x < 6.0 ==> r == x
  {
    x - 6.0 * Truncate(x / 6.0) as real
  }

  // ---------------------------------------------------------------------
  // Hue and saturation
  // ---------------------------------------------------------------------

  /** Which of the four hue formulas applies. */
  datatype HueBranch = Achromatic | RedMax | GreenMax | BlueMax

  /** The branch the hue computation takes: equal channels first, then the
      first channel in red, green, blue order that equals the maximum. */
  function BranchOf(c: Rgb): HueBranch
  {
    if Delta(c) == 0.0 then Achromatic
    else if MaxChannel(c) == c.red then RedMax
    else if MaxChannel(c) == c.green then GreenMax
    else BlueMax
  }

  /** The channel a branch is named after. */
  function BranchChannel(c: Rgb, b: HueBranch): real
    requires b != Achromatic
  {
    match b
    case RedMax => c.red
    case GreenMax => c.green
    case BlueMax => c.blue
  }

  /** The hue the formula of branch b gives, before negative values are
      moved up by 360 degrees. */
  function BranchHue(c: Rgb, b: HueBranch): real
    requires b != Achromatic ==> Delta(c) > 0.0
  {
    match b
    case Achromatic => 0.0
    case RedMax => 60.0 * Rem6((c.green - c.blue) / Delta(c))
    case GreenMax => 60.0 * ((c.blue - c.red) / Delta(c) + 2.0)
    case BlueMax => 60.0 * ((c.red - c.green) / Delta(c) + 4.0)
  }

  /** The fix-up applied to the raw hue: a negative value gets 360 added. */
  function Wrap(h: real): real
  {
    if h < 0.0 then h + 360.0 else h
  }

  /** The hue in degrees of a reading. */
  function Hue(c: Rgb): real
  {
    Wrap(BranchHue(c, BranchOf(c)))
  }

  /** The saturation of a reading: zero for a black reading, otherwise the
      spread relative to the brightest channel. */
  function Saturation(c: Rgb): real
  {
    SaturationOf(MaxChannel(c), Delta(c))
  }

  /** The saturation formula on the brightest channel and the spread. */
  function SaturationOf(brightest: real, spread: real): real
  {
    if brightest == 0.0 then 0.0 else spread / brightest
  }

  // ---------------------------------------------------------------------
  // The label cascade
  // ---------------------------------------------------------------------

  /** The hue tests of the cascade, in source order, with Unknown when none
      of them holds. */
  function HueLabel(h: real): ColorLabel
  {
    if h >= 330.0 || h < 30.0 then Red
    else if h >= 30.0 && h < 90.0 then Yellow
    else if h >= 90.0 && h < 150.0 then Green
    else if h >= 150.0 && h < 210.0 then Cyan
    else if h >= 210.0 && h < 270.0 then Blue
    else if h >= 270.0 && h < 330.0 then Purple
    else Unknown
  }

  /** The whole cascade: darkness first, then whiteness, then the hue. */
  function Label(brightest: real, saturation: real, hue: real): ColorLabel
  {
    if brightest < 0.2 then BlackDark
    else if saturation < 0.2 && brightest > 0.4 then White
    else HueLabel(hue)
  }

  /** The classification of one reading. */
  function Classify(c: Rgb): Classification
  {
    var h := Hue(c);
    var s := Saturation(c);
    Classification(h, s, Label(MaxChannel(c), s, h))
  }

  // ---------------------------------------------------------------------
  // An independent description of the hue bands
  // ---------------------------------------------------------------------

  /** The 60-degree sector centred on a multiple of 60 degrees that a hue in
      [0, 360) falls into: 0 is centred on red, 1 on yellow, and so on. */
  function Sector(h: real): (k: int)
    ensures 0 <= k < 6
  {
    ((h + 30.0) / 60.0).Floor % 6
  }

  /** The label named after each sector's centre hue. */
  function SectorLabel(k: int): ColorLabel
    requires 0 <= k < 6
  {
    [Red, Yellow, Green, Cyan, Blue, Purple][k]
  }

  /** The interval test the cascade uses for band k. */
  predicate InBand(h: real, k: int)
    requires 0 <= k < 6
  {
    if k == 0 then h >= 330.0 || h < 30.0
    else 60.0 * k as real - 30.0 <= h < 60.0 * k as real + 30.0
  }

  // ---------------------------------------------------------------------
  // Properties
  // ---------------------------------------------------------------------

  /** A quotient by a positive divisor lies in [-1, 1] when the dividend's
      magnitude is at most the divisor, strictly inside when strictly less. */
  lemma QuotientBounds(a: real, d: real)
    requires d > 0.0
    requires -d <= a <= d
    ensures -1.0 <= a / d <= 1.0
    ensures a < d ==> a / d < 1.0
    ensures -d < a ==> -1.0 < a / d
  {
    assert (a / d) * d == a;
  }

  /** The hue of every reading lies in [0, 360): equal channels give 0, the
      red formula gives [0, 60] or [300, 360), the green formula (60, 180]
      and the blue formula (180, 300). */
  lemma HueRange(c: Rgb)
    ensures 0.0 <= Hue(c) < 360.0
    ensures Delta(c) == 0.0 ==> Hue(c) == 0.0
    ensures BranchOf(c) == RedMax ==> Hue(c) <= 60.0 || 300.0 <= Hue(c)
    ensures BranchOf(c) == GreenMax ==> 60.0 < Hue(c) <= 180.0
    ensures BranchOf(c) == BlueMax ==> 180.0 < Hue(c) < 300.0
  {
    var mx, mn, d := MaxChannel(c), MinChannel(c), Delta(c);
    match BranchOf(c)
    case Achromatic =>
    case RedMax =>
      QuotientBounds(c.green - c.blue, d);
    case GreenMax =>
      assert c.red < mx;
      QuotientBounds(c.blue - c.red, d);
    case BlueMax =>
      assert c.red < mx && c.green < mx;
      QuotientBounds(c.red - c.green, d);
  }

  /** The red-then-green-then-blue tie-break never changes the hue: when two
      channels share the maximum, the formula of the one passed over gives,
      after the fix-up, the same hue as the one taken. */
  lemma TieBreakImmaterial(c: Rgb, b: HueBranch)
    requires Delta(c) > 0.0
    requires b != Achromatic && BranchChannel(c, b) == MaxChannel(c)
    ensures Wrap(BranchHue(c, b)) == Hue(c)
  {
    var mx, mn, d := MaxChannel(c), MinChannel(c), Delta(c);
    var taken := BranchOf(c);
    if b != taken {
      UnitQuotients(d);
      if taken == RedMax && b == GreenMax {
        assert c.green - c.blue == d && c.blue - c.red == -d;
        assert BranchHue(c, b) == 60.0 == BranchHue(c, taken);
      } else if taken == RedMax {
        assert c.green - c.blue == -d && c.red - c.green == d;
        assert BranchHue(c, b) == 300.0 && BranchHue(c, taken) == -60.0;
      } else {
        assert taken == GreenMax && b == BlueMax;
        assert c.blue - c.red == d && c.red - c.green == -d;
        assert BranchHue(c, b) == 180.0 == BranchHue(c, taken);
      }
    }
  }

  /** A positive spread divided by itself, and its negation divided by it. */
  lemma UnitQuotients(d: real)
    requires d > 0.0
    ensures d / d == 1.0 && -d / d == -1.0
  {
  }

  /** For readings the sensor can produce, saturation lies in [0, 1]; it is 0
      exactly when the channels are equal, and 1 exactly when some channel is
      off and some is not. */
  lemma SaturationRange(c: Rgb)
    requires NonNegative(c)
    ensures 0.0 <= Saturation(c) <= 1.0
    ensures Saturation(c) == 0.0 <==> Delta(c) == 0.0
    ensures Saturation(c) == 1.0 <==> MinChannel(c) == 0.0 < MaxChannel(c)
  {
    SaturationBounds(MaxChannel(c), MinChannel(c));
  }

  /** The saturation formula for a brightest and a dimmest value that are
      not negative. */
  lemma SaturationBounds(brightest: real, dimmest: real)
    requires 0.0 <= dimmest <= brightest
    ensures var s := SaturationOf(brightest, brightest - dimmest);
      0.0 <= s <= 1.0 &&
      (s == 0.0 <==> brightest == dimmest) &&
      (s == 1.0 <==> dimmest == 0.0 < brightest)
  {
    var d := brightest - dimmest;
    if brightest > 0.0 {
      assert (d / brightest) * brightest == d;
    }
  }

  /** The six hue bands of the cascade partition [0, 360): a hue lies in
      band k exactly when k is its sector. */
  lemma BandsPartition(h: real, k: int)
    requires 0.0 <= h < 360.0
    requires 0 <= k < 6
    ensures InBand(h, k) <==> k == Sector(h)
  {
    var f := ((h + 30.0) / 60.0).Floor;
    assert f as real <= (h + 30.0) / 60.0 < f as real + 1.0;
    assert 60.0 * f as real - 30.0 <= h < 60.0 * f as real + 30.0;
    assert 0 <= f <= 6;
  }

  /** The hue tests of the cascade agree with the sector description on
      every hue in [0, 360), so they never fall through to Unknown. */
  lemma HueLabelBySector(h: real)
    requires 0.0 <= h < 360.0
    ensures HueLabel(h) == SectorLabel(Sector(h))
    ensures HueLabel(h) != Unknown
  {
    var k := Sector(h);
    BandsPartition(h, k);
  }

  /** What the classifier answers, for every reading: Black/Dark exactly when
      the brightest channel is below 0.2; White exactly when it is above 0.4
      and the saturation below 0.2; otherwise the label of the hue's sector.
      So exactly one rule fires and Unknown is never the answer. */
  lemma ClassifySpec(c: Rgb)
    ensures 0.0 <= Classify(c).hue < 360.0
    ensures Classify(c).color == BlackDark <==> MaxChannel(c) < 0.2
    ensures Classify(c).color == White <==> MaxChannel(c) > 0.4 && Saturation(c) < 0.2
    ensures MaxChannel(c) >= 0.2 && !(MaxChannel(c) > 0.4 && Saturation(c) < 0.2) ==>
              Classify(c).color == SectorLabel(Sector(Hue(c)))
    ensures Classify(c).color != Unknown
  {
    HueRange(c);
    HueLabelBySector(Hue(c));
  }

  /** Pure red, green and blue get hue 0, 120 and 240, full saturation, and
      the labels Red, Green and Blue. */
  lemma PrimaryExamples()
    ensures Classify(Rgb(1.0, 0.0, 0.0)) == Classification(0.0, 1.0, Red)
    ensures Classify(Rgb(0.0, 1.0, 0.0)) == Classification(120.0, 1.0, Green)
    ensures Classify(Rgb(0.0, 0.0, 1.0)) == Classification(240.0, 1.0, Blue)
  {
    assert Rem6(0.0) == 0.0;
  }

  /** Two channels at full intensity: the tie goes to the earlier channel,
      giving Yellow at 60, Cyan at 180 and Purple at 300 degrees. */
  lemma TieExamples()
    ensures Classify(Rgb(1.0, 1.0, 0.0)) == Classification(60.0, 1.0, Yellow)
    ensures Classify(Rgb(0.0, 1.0, 1.0)) == Classification(180.0, 1.0, Cyan)
    ensures Classify(Rgb(1.0, 0.0, 1.0)) == Classification(300.0, 1.0, Purple)
  {
    assert Rem6(1.0) == 1.0 && Rem6(-1.0) == -1.0;
  }

  /** Greys: a dim one is Black/Dark, a bright one is White, both at hue 0. */
  lemma GreyExamples()
    ensures Classify(Rgb(0.05, 0.05, 0.05)) == Classification(0.0, 0.0, BlackDark)
    ensures Classify(Rgb(0.9, 0.9, 0.9)) == Classification(0.0, 0.0, White)
  {
  }
}
