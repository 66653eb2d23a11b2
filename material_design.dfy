/** The design tokens of src/material_design.rs: elevation levels and their
    shadow text, easing curves and durations, corner shapes and the type
    scale. */
module MaterialDesign {
  import opened Format
  import Transition

  // ---------------------------------------------------------------------
  // Elevation
  // ---------------------------------------------------------------------

  datatype Elevation = Level0 | Level1 | Level2 | Level3 | Level4 | Level5 {

    /** Position in the declaration order (the derived `Ord`). */
    function Rank(): nat {
      match this
      case Level0 => 0
      case Level1 => 1
      case Level2 => 2
      case Level3 => 3
      case Level4 => 4
      case Level5 => 5
    }

    /** The density-independent elevation of the level. */
    function AsValue(): (v: nat)
      ensures v <= 12
      ensures v == 0 <==> this == Level0
    {
      match this
      case Level0 => 0
      case Level1 => 1
      case Level2 => 3
      case Level3 => 6
      case Level4 => 8
      case Level5 => 12
    }

    /** `as_shadow`: the two box shadows of the level, from the clamp
        arithmetic applied to the elevation in dp (0, 1, 3, 6, 8, 12). Below
        level 2 that is the level's own shadow; level 2 draws level 3's,
        and levels 3 to 5 all draw level 5's. */
    function AsShadow(): (s: string)
      ensures Rank() <= 1 ==> s == AsShadowIntended()
      ensures this == Level2 ==> s == Level3.AsShadowIntended()
      ensures Rank() >= 3 ==> s == Level5.AsShadowIntended()
    {
      var level := AsValue();
      if Rank() <= 1 then
        assert level == Rank();
        ShadowText(ShadowOf(level))
      else if this == Level2 then
        assert level == Level3.Rank();
        ShadowText(ShadowOf(level))
      else
        assert ShadowOf(level) == ShadowOf(Level5.Rank());
        ShadowText(ShadowOf(level))
    }

    /** The shadow numbers on the scale material-web's arithmetic is written
        for: the level's position 0-5. */
    function ShadowIntended(): Shadow {
      ShadowOf(Rank())
    }

    /** The shadow text on the level scale. Below level 2, where the level
        and the dp value coincide, it is the text of the dp arithmetic. */
    function AsShadowIntended(): (s: string)
      ensures Rank() <= 1 ==> s == ShadowText(ShadowOf(AsValue()))
    {
      assert Rank() <= 1 ==> AsValue() == Rank();
      ShadowText(ShadowIntended())
    }
  }

  /** `i32::clamp`. */
  function Clamp(x: int, lo: int, hi: int): (r: int)
    requires lo <= hi
    ensures lo <= r <= hi
    ensures lo <= x <= hi ==> r == x
  {
    if x < lo then lo else if x > hi then hi else x
  }

  /** The numbers of the two shadows: the key shadow's y offset and blur,
      and the ambient shadow's y offset, blur and spread. */
  datatype Shadow = Shadow(y1: nat, blur1: nat, y2: nat, blur2: nat, spread: nat) {
    /** The five numbers, in order. */
    predicate Is(y1: int, blur1: int, y2: int, blur2: int, spread: int) {
      this.y1 == y1 && this.blur1 == blur1 && this.y2 == y2 && this.blur2 == blur2 && this.spread == spread
    }
  }

  /** The clamp arithmetic of material-web's elevation stylesheet, on a
      level value. */
  function ShadowOf(level: int): (s: Shadow)
    ensures s.y1 <= 4 && s.blur1 <= 4 && s.y2 <= 8 && s.blur2 <= 12 && s.spread <= 6
    ensures level <= 0 ==> s.Is(0, 0, 0, 0, 0)
    ensures level >= 5 ==> s.Is(4, 4, 8, 12, 6)
  {
    var y1 := Clamp(level, 0, 1) + Clamp(level - 3, 0, 1) + 2 * Clamp(level - 4, 0, 1);
    var blur1 := 2 * Clamp(level, 0, 1) + Clamp(level - 2, 0, 1) + Clamp(level - 4, 0, 1);
    var y2 := Clamp(level, 0, 1) + Clamp(level - 1, 0, 1) + 2 * Clamp(level - 2, 0, 3);
    var blur2 := 3 * Clamp(level, 0, 2) + 2 * Clamp(level - 2, 0, 3);
    var spread := Clamp(level, 0, 4) + 2 * Clamp(level - 4, 0, 1);
    Shadow(y1, blur1, y2, blur2, spread)
  }

  const KeyShadowColor := "rgb(0, 0, 0, 0.3)"
  const AmbientShadowColor := "rgb(0, 0, 0, 0.15)"

  /** "0 <y1> <blur1> 0 <colour1>, 0 <y2> <blur2> <spread> <colour2>". While
      the key shadow's numbers and the ambient offset have one digit each,
      the ambient offset is the thirtieth character. */
  function ShadowText(s: Shadow): (t: string)
    ensures |t| > 29
    ensures s.y1 < 10 && s.blur1 < 10 && s.y2 < 10 ==> t[29] == Digit(s.y2)
  {
    var key := KeyShadow(s.y1, s.blur1);
    var ambient := AmbientShadow(s.y2, s.blur2, s.spread);
    assert s.y1 < 10 && s.blur1 < 10 ==> |key| == 25;
    assert s.y2 < 10 ==> ambient[2] == Decimal(s.y2)[0];
    key + ", " + ambient
  }

  /** The key shadow: no x offset, no spread. */
  function KeyShadow(y: nat, blur: nat): string {
    "0 " + Decimal(y) + " " + Decimal(blur) + " 0 " + KeyShadowColor
  }

  /** The ambient shadow: no x offset. */
  function AmbientShadow(y: nat, blur: nat, spread: nat): string {
    "0 " + Decimal(y) + " " + Decimal(blur) + " " + Decimal(spread) + " " + AmbientShadowColor
  }

  predicate AtMost(a: Shadow, b: Shadow) {
    a.y1 <= b.y1 && a.blur1 <= b.blur1 && a.y2 <= b.y2 && a.blur2 <= b.blur2 && a.spread <= b.spread
  }

  lemma ElevationValueStrictlyIncreasing(a: Elevation, b: Elevation)
    requires a.Rank() < b.Rank()
    ensures a.AsValue() < b.AsValue()
  {
  }

  /** Every shadow number grows with the level value. */
  lemma ShadowMonotone(a: int, b: int)
    requires a <= b
    ensures AtMost(ShadowOf(a), ShadowOf(b))
  {
    ClampMonotone(a, b, 0, 1);
    ClampMonotone(a - 1, b - 1, 0, 1);
    ClampMonotone(a - 2, b - 2, 0, 1);
    ClampMonotone(a - 3, b - 3, 0, 1);
    ClampMonotone(a - 4, b - 4, 0, 1);
    ClampMonotone(a, b, 0, 2);
    ClampMonotone(a - 2, b - 2, 0, 3);
    ClampMonotone(a, b, 0, 4);
  }

  lemma ClampMonotone(x: int, y: int, lo: int, hi: int)
    requires x <= y && lo <= hi
    ensures Clamp(x, lo, hi) <= Clamp(y, lo, hi)
  {
  }

  /** From level value 5 on, every clamp has saturated. */
  lemma ShadowSaturates(level: int)
    requires level >= 5
    ensures ShadowOf(level) == ShadowOf(5)
  {
  }

  lemma ElevationShadowMonotone(a: Elevation, b: Elevation)
    requires a.Rank() <= b.Rank()
    ensures AtMost(ShadowOf(a.AsValue()), ShadowOf(b.AsValue()))
  {
    if a.Rank() < b.Rank() {
      ElevationValueStrictlyIncreasing(a, b);
    } else {
      assert a == b;
    }
    ShadowMonotone(a.AsValue(), b.AsValue());
  }

  /** Levels 3, 4 and 5 draw one and the same shadow, since their dp values
      6, 8 and 12 saturate every clamp. */
  lemma TopLevelsShareOneShadow(a: Elevation, b: Elevation)
    requires a.Rank() >= 3 && b.Rank() >= 3
    ensures a.AsShadow() == b.AsShadow()
  {
    ShadowSaturates(a.AsValue());
    ShadowSaturates(b.AsValue());
  }

  /** Level 2, at 3 dp, draws the shadow meant for level 3, not its own. */
  lemma Level2DrawsLevel3Shadow()
    ensures Level2.AsShadow() != Level2.AsShadowIntended()
  {
    LevelsDrawDistinctShadows(Level2, Level3);
  }

  /** The material-web elevation table for levels 1 to 5. */
  lemma ShadowTable()
    ensures ShadowOf(1).Is(1, 2, 1, 3, 1)
    ensures ShadowOf(2).Is(1, 2, 2, 6, 2)
    ensures ShadowOf(3).Is(1, 3, 4, 8, 3)
    ensures ShadowOf(4).Is(2, 3, 6, 10, 4)
    ensures ShadowOf(5).Is(4, 4, 8, 12, 6)
  {
    assert ShadowOf(1) == Shadow(1, 2, 1, 3, 1);
    assert ShadowOf(2) == Shadow(1, 2, 2, 6, 2);
    assert ShadowOf(3) == Shadow(1, 3, 4, 8, 3);
    assert ShadowOf(4) == Shadow(2, 3, 6, 10, 4);
    assert ShadowOf(5) == Shadow(4, 4, 8, 12, 6);
  }

  /** Every shadow number grows with the level. */
  lemma ShadowGrowsWithLevel(a: Elevation, b: Elevation)
    requires a.Rank() <= b.Rank()
    ensures AtMost(a.ShadowIntended(), b.ShadowIntended())
  {
    ShadowMonotone(a.Rank(), b.Rank());
  }

  /** On the level scale 0-5 the ambient shadow's offset grows strictly. */
  lemma AmbientOffsetStrictlyGrows(a: int, b: int)
    requires 0 <= a < b <= 5
    ensures ShadowOf(a).y2 < ShadowOf(b).y2
  {
    ClampMonotone(a, b, 0, 1);
    ClampMonotone(a - 1, b - 1, 0, 1);
    ClampMonotone(a - 2, b - 2, 0, 3);
    if a == 0 {
      assert Clamp(a, 0, 1) < Clamp(b, 0, 1);
    } else if a == 1 {
      assert Clamp(a - 1, 0, 1) < Clamp(b - 1, 0, 1);
    } else {
      assert Clamp(a - 2, 0, 3) < Clamp(b - 2, 0, 3);
    }
  }

  lemma KeyShadowTexts(y: nat, blur: nat)
    ensures y == 0 && blur == 0 ==> KeyShadow(y, blur) == "0 0 0 0 " + KeyShadowColor
    ensures y == 1 && blur == 2 ==> KeyShadow(y, blur) == "0 1 2 0 " + KeyShadowColor
  {
    if y == 0 && blur == 0 {
      assert Decimal(0) == "0";
      assert "0 " + "0" + " " + "0" + " 0 " == "0 0 0 0 ";
    } else if y == 1 && blur == 2 {
      assert Decimal(1) == "1" && Decimal(2) == "2";
      assert "0 " + "1" + " " + "2" + " 0 " == "0 1 2 0 ";
    }
  }

  lemma AmbientShadowTexts(y: nat, blur: nat, spread: nat)
    ensures y == 0 && blur == 0 && spread == 0 ==> AmbientShadow(y, blur, spread) == "0 0 0 0 " + AmbientShadowColor
    ensures y == 1 && blur == 3 && spread == 1 ==> AmbientShadow(y, blur, spread) == "0 1 3 1 " + AmbientShadowColor
  {
    if y == 0 && blur == 0 && spread == 0 {
      assert Decimal(0) == "0";
      assert "0 " + "0" + " " + "0" + " " + "0" + " " == "0 0 0 0 ";
    } else if y == 1 && blur == 3 && spread == 1 {
      assert Decimal(1) == "1" && Decimal(3) == "3";
      assert "0 " + "1" + " " + "3" + " " + "1" + " " == "0 1 3 1 ";
    }
  }

  /** The text of the all-zero shadow and of the level 1 shadow. */
  lemma ShadowTexts(s: Shadow)
    ensures s.Is(0, 0, 0, 0, 0) ==> ShadowText(s) == ("0 0 0 0 " + KeyShadowColor) + ", " + ("0 0 0 0 " + AmbientShadowColor)
    ensures s.Is(1, 2, 1, 3, 1) ==> ShadowText(s) == ("0 1 2 0 " + KeyShadowColor) + ", " + ("0 1 3 1 " + AmbientShadowColor)
  {
    KeyShadowTexts(s.y1, s.blur1);
    AmbientShadowTexts(s.y2, s.blur2, s.spread);
  }

  /** Level 0 draws "0 0 0 0 rgb(0, 0, 0, 0.3), 0 0 0 0 rgb(0, 0, 0, 0.15)". */
  lemma LevelZeroShadowText()
    ensures Level0.AsShadow() == ("0 0 0 0 " + KeyShadowColor) + ", " + ("0 0 0 0 " + AmbientShadowColor)
  {
    ShadowTexts(ShadowOf(0));
  }

  /** Level 1 draws "0 1 2 0 rgb(0, 0, 0, 0.3), 0 1 3 1 rgb(0, 0, 0, 0.15)". */
  lemma LevelOneShadowText()
    ensures Level1.AsShadow() == ("0 1 2 0 " + KeyShadowColor) + ", " + ("0 1 3 1 " + AmbientShadowColor)
  {
    assert ShadowOf(1).Is(1, 2, 1, 3, 1);
    ShadowTexts(ShadowOf(1));
  }

  /** Shadows whose ambient offsets differ are written differently. */
  lemma ShadowTextSeparates(s: Shadow, t: Shadow)
    requires s.y1 < 10 && s.blur1 < 10 && s.y2 < 10
    requires t.y1 < 10 && t.blur1 < 10 && t.y2 < 10
    requires s.y2 != t.y2
    ensures ShadowText(s) != ShadowText(t)
  {
    assert ShadowText(s)[29] != ShadowText(t)[29];
  }

  /** On the level scale 0-5, distinct levels are written differently. */
  lemma DistinctLevelsDistinctText(a: int, b: int)
    requires 0 <= a <= 5 && 0 <= b <= 5 && a != b
    ensures ShadowText(ShadowOf(a)) != ShadowText(ShadowOf(b))
  {
    if a < b {
      AmbientOffsetStrictlyGrows(a, b);
    } else {
      AmbientOffsetStrictlyGrows(b, a);
    }
    ShadowTextSeparates(ShadowOf(a), ShadowOf(b));
  }

  /** On the level scale every level draws a shadow of its own. */
  lemma LevelsDrawDistinctShadows(a: Elevation, b: Elevation)
    requires a != b
    ensures a.AsShadowIntended() != b.AsShadowIntended()
  {
    DistinctLevelsDistinctText(a.Rank(), b.Rank());
  }

  // ---------------------------------------------------------------------
  // Motion
  // ---------------------------------------------------------------------

  datatype Easing =
    | Emphasized
    | EmphasizedDecelerate
    | EmphasizedAccelerate
    | Standard
    | StandardDecelerate
    | StandardAccelerate
  {
    /** The curve of the preset; the cubic control points are data only.
        None of them snaps, and all but the emphasized preset are plain
        cubic Béziers. */
    function AsValue(): (c: Transition.Curve)
      ensures c != Transition.Instant
      ensures this == Emphasized <==> c == Transition.EaseInOutCubicEmphasized
      ensures this != Emphasized ==> c.Cubic?
    {
      match this
      case Emphasized => Transition.EaseInOutCubicEmphasized
      case EmphasizedDecelerate => Transition.Cubic(0.05, 0.7, 0.1, 1.0)
      case EmphasizedAccelerate => Transition.Cubic(0.3, 0.0, 0.8, 0.15)
      case Standard => Transition.Cubic(0.2, 0.0, 0.0, 1.0)
      case StandardDecelerate => Transition.Cubic(0.0, 0.0, 0.0, 1.0)
      case StandardAccelerate => Transition.Cubic(0.3, 0.0, 1.0, 1.0)
    }
  }

  /** Distinct presets are distinct curves. */
  lemma EasingCurvesDistinct(a: Easing, b: Easing)
    ensures a.AsValue() == b.AsValue() ==> a == b
  {
  }

  datatype EasingDuration = Short | Medium | Long | ExtraLong {

    function Rank(): nat {
      match this
      case Short => 0
      case Medium => 1
      case Long => 2
      case ExtraLong => 3
    }

    /** The four durations of the tier, in milliseconds. */
    function AsValue(): (d: seq<nat>)
      ensures |d| == 4
      ensures forall i, j :: 0 <= i < j < 4 ==> d[i] < d[j]
      ensures 50 <= d[0] && d[3] <= 1000
    {
      match this
      case Short => [50, 100, 150, 200]
      case Medium => [250, 300, 350, 400]
      case Long => [450, 500, 550, 600]
      case ExtraLong => [700, 800, 900, 1000]
    }
  }

  /** Every duration of a lower tier is shorter than every duration of a
      higher one. */
  lemma DurationTiersOrdered(a: EasingDuration, b: EasingDuration, i: nat, j: nat)
    requires a.Rank() < b.Rank() && i < 4 && j < 4
    ensures a.AsValue()[i] < b.AsValue()[j]
  {
  }

  // ---------------------------------------------------------------------
  // Shape
  // ---------------------------------------------------------------------

  datatype Shape =
    | None
    | ExtraSmall
    | ExtraSmallTop
    | Small
    | Medium
    | Large
    | LargeStart
    | LargeEnd
    | LargeTop
    | ExtraLarge
    | ExtraLargeTop
    | Full
  {
    /** The corner radius text: one radius for all corners, or four
        separated by spaces. Only the full shape uses 9999. */
    function AsValue(): (s: string)
      ensures |s| > 0 && s[0] != ' ' && s[|s| - 1] != ' '
      ensures forall i :: 0 <= i < |s| ==> s[i] == ' ' || '0' <= s[i] <= '9'
      ensures s == "9999" <==> this == Full
    {
      match this
      case None => "0"
      case ExtraSmall => "4"
      case ExtraSmallTop => "4 4 0 0"
      case Small => "8"
      case Medium => "12"
      case Large => "16"
      case LargeStart => "16 0 0 16"
      case LargeEnd => "0 16 16 0"
      case LargeTop => "16 16 0 0"
      case ExtraLarge => "28"
      case ExtraLargeTop => "28 28 0 0"
      case Full => "9999"
    }
  }

  /** No two shapes share a corner radius text. */
  lemma ShapeValuesDistinct(a: Shape, b: Shape)
    ensures a.AsValue() == b.AsValue() ==> a == b
  {
  }

  // ---------------------------------------------------------------------
  // Type scale
  // ---------------------------------------------------------------------

  datatype TypescaleVariant = Display | Headline | Title | Body | Label
  datatype TypescaleSize = Large | Medium | Small

  /** (family, weight, size, tracking, line height). */
  datatype Typescale = Typescale(family: string, weight: nat, size: nat, tracking: real, lineHeight: nat)

  const DisplayLarge := Typescale("Roboto", 400, 57, -0.25, 64)
  const DisplayMedium := Typescale("Roboto", 400, 45, 0.0, 52)
  const DisplaySmall := Typescale("Roboto", 400, 36, 0.0, 44)
  const HeadlineLarge := Typescale("Roboto", 400, 32, 0.0, 40)
  const HeadlineMedium := Typescale("Roboto", 400, 28, 0.0, 36)
  const HeadlineSmall := Typescale("Roboto", 400, 24, 0.0, 32)
  const TitleLarge := Typescale("Roboto", 400, 22, 0.0, 28)
  const TitleMedium := Typescale("Roboto", 500, 16, 0.15, 24)
  const TitleSmall := Typescale("Roboto", 500, 14, 0.1, 20)
  const BodyLarge := Typescale("Roboto", 400, 16, 0.5, 24)
  const BodyMedium := Typescale("Roboto", 400, 14, 0.25, 20)
  const BodySmall := Typescale("Roboto", 400, 12, 0.4, 16)
  const LabelLarge := Typescale("Roboto", 500, 14, 0.1, 20)
  const LabelLargeProminent := Typescale("Roboto", 700, 14, 0.1, 20)
  const LabelMedium := Typescale("Roboto", 500, 12, 0.5, 16)
  const LabelMediumProminent := Typescale("Roboto", 700, 12, 0.5, 16)
  const LabelSmall := Typescale("Roboto", 500, 11, 0.5, 16)

  /** The type scale entry for a variant and size; `prominent` selects the
      bold label variants. */
  function GetTypeScale(variant: TypescaleVariant, size: TypescaleSize, prominent: bool): (t: Typescale)
    ensures t.family == "Roboto"
    ensures t.size < t.lineHeight < 2 * t.size
    ensures t.weight == 400 || t.weight == 500 || t.weight == 700
    ensures t.weight == 700 <==> variant == Label && size != TypescaleSize.Small && prominent
  {
    match (variant, size)
    case (Display, Large) => DisplayLarge
    case (Display, Medium) => DisplayMedium
    case (Display, Small) => DisplaySmall
    case (Headline, Large) => HeadlineLarge
    case (Headline, Medium) => HeadlineMedium
    case (Headline, Small) => HeadlineSmall
    case (Title, Large) => TitleLarge
    case (Title, Medium) => TitleMedium
    case (Title, Small) => TitleSmall
    case (Body, Large) => BodyLarge
    case (Body, Medium) => BodyMedium
    case (Body, Small) => BodySmall
    case (Label, Large) => if prominent then LabelLargeProminent else LabelLarge
    case (Label, Medium) => if prominent then LabelMediumProminent else LabelMedium
    case (Label, Small) => LabelSmall
  }

  /** `prominent` matters only for large and medium labels, and there it
      raises only the weight, from 500 to 700. */
  lemma ProminentOnlyBoldsLabels(variant: TypescaleVariant, size: TypescaleSize)
    ensures var plain, bold := GetTypeScale(variant, size, false), GetTypeScale(variant, size, true);
      if variant == Label && size != TypescaleSize.Small
      then plain.weight == 500 && bold == plain.(weight := 700)
      else bold == plain
  {
  }
}
