/** The `Typography` component of src/components/typography.rs and the copy
    of the type scale it carries. The variant, size and `Typescale` types
    are declared there exactly as in src/material_design.rs, so the model
    shares MaterialDesign's declarations and keeps this file's own table. */
module Typography {
  import opened Wrappers
  import MaterialDesign

  type Typescale = MaterialDesign.Typescale
  type TypescaleVariant = MaterialDesign.TypescaleVariant
  type TypescaleSize = MaterialDesign.TypescaleSize

  /** This file's `get_type_scale`. */
  function GetTypeScale(variant: TypescaleVariant, size: TypescaleSize, prominent: bool): (t: Typescale)
    ensures t.family == "Roboto"
    ensures t.weight == 400 || t.weight == 500 || t.weight == 700
    ensures t.weight == 700 <==> variant.Label? && !size.Small? && prominent
    ensures t.size < t.lineHeight < 2 * t.size
  {
    match (variant, size)
    case (Display, Large) => MaterialDesign.Typescale("Roboto", 400, 57, -0.25, 64)
    case (Display, Medium) => MaterialDesign.Typescale("Roboto", 400, 45, 0.0, 52)
    case (Display, Small) => MaterialDesign.Typescale("Roboto", 400, 36, 0.0, 44)
    case (Headline, Large) => MaterialDesign.Typescale("Roboto", 400, 32, 0.0, 40)
    case (Headline, Medium) => MaterialDesign.Typescale("Roboto", 400, 28, 0.0, 36)
    case (Headline, Small) => MaterialDesign.Typescale("Roboto", 400, 24, 0.0, 32)
    case (Title, Large) => MaterialDesign.Typescale("Roboto", 400, 22, 0.0, 28)
    case (Title, Medium) => MaterialDesign.Typescale("Roboto", 500, 16, 0.15, 24)
    case (Title, Small) => MaterialDesign.Typescale("Roboto", 500, 14, 0.1, 20)
    case (Body, Large) => MaterialDesign.Typescale("Roboto", 400, 16, 0.5, 24)
    case (Body, Medium) => MaterialDesign.Typescale("Roboto", 400, 14, 0.25, 20)
    case (Body, Small) => MaterialDesign.Typescale("Roboto", 400, 12, 0.4, 16)
    case (Label, Large) =>
      if prominent then MaterialDesign.Typescale("Roboto", 700, 14, 0.1, 20)
      else MaterialDesign.Typescale("Roboto", 500, 14, 0.1, 20)
    case (Label, Medium) =>
      if prominent then MaterialDesign.Typescale("Roboto", 700, 12, 0.5, 16)
      else MaterialDesign.Typescale("Roboto", 500, 12, 0.5, 16)
    case (Label, Small) => MaterialDesign.Typescale("Roboto", 500, 11, 0.5, 16)
  }

  /** The two copies of the type scale agree on every input. */
  lemma AgreesWithMaterialDesign(variant: TypescaleVariant, size: TypescaleSize, prominent: bool)
    ensures GetTypeScale(variant, size, prominent) == MaterialDesign.GetTypeScale(variant, size, prominent)
  {
  }

  /** `prominent` changes nothing outside the large and medium labels. */
  lemma ProminentIgnoredElsewhere(variant: TypescaleVariant, size: TypescaleSize)
    ensures !(variant.Label? && !size.Small?) ==> GetTypeScale(variant, size, true) == GetTypeScale(variant, size, false)
  {
  }

  /** The label attributes the component writes. `lineHeight` is the
      multiple of the font size Freya's `line_height` attribute expects. */
  datatype Text = Text(family: string, weight: nat, size: nat, lineHeight: real)

  /** `line_height / size`: both are unsigned integers, so the division
      truncates to the whole number of font sizes that fit in the line. */
  function LineHeight(t: Typescale): (r: nat)
    requires t.size > 0
    ensures r * t.size <= t.lineHeight < (r + 1) * t.size
  {
    t.lineHeight / t.size
  }

  /** Every entry's line height is between one and two font sizes, so the
      truncating division always writes 1: every type scale gets the same
      line spacing, and none gets its own line height back. */
  lemma LineHeightIsAlwaysOne(variant: TypescaleVariant, size: TypescaleSize, prominent: bool)
    ensures var t := GetTypeScale(variant, size, prominent);
      LineHeight(t) == 1 && LineHeight(t) * t.size != t.lineHeight
  {
    var t := GetTypeScale(variant, size, prominent);
    var r := LineHeight(t);
    assert r * t.size <= t.lineHeight < 2 * t.size;
    assert t.size < t.lineHeight < (r + 1) * t.size;
  }

  /** The line height as a multiple of the font size, undivided. */
  function LineHeightIntended(t: Typescale): (r: real)
    requires t.size > 0
    ensures r * t.size as real == t.lineHeight as real
  {
    t.lineHeight as real / t.size as real
  }

  /** The ratio multiplies back to each entry's line height in pixels and
      lies strictly between 1 and 2. */
  lemma LineHeightIntendedRecoversPixels(variant: TypescaleVariant, size: TypescaleSize, prominent: bool)
    ensures var t := GetTypeScale(variant, size, prominent);
      var r := LineHeightIntended(t);
      1.0 < r < 2.0 && r * t.size as real == t.lineHeight as real
  {
    var t := GetTypeScale(variant, size, prominent);
    var r := LineHeightIntended(t);
    var s := t.size as real;
    assert r * s == t.lineHeight as real;
    assert s < r * s < 2.0 * s;
  }

  /** What `Typography` writes for one entry: family, weight and size as
      given, the truncated line height, and no tracking. */
  function Render(t: Typescale): (x: Text)
    requires t.size > 0
    ensures x.family == t.family && x.weight == t.weight && x.size == t.size
    ensures x.lineHeight == x.lineHeight.Floor as real
    ensures x.lineHeight * t.size as real <= t.lineHeight as real < (x.lineHeight + 1.0) * t.size as real
    ensures t.size < t.lineHeight < 2 * t.size ==> x.lineHeight == 1.0
  {
    Text(t.family, t.weight, t.size, LineHeight(t) as real)
  }

  /** The label with the line height the table evidently means. */
  function RenderIntended(t: Typescale): (x: Text)
    requires t.size > 0
    ensures x.family == t.family && x.weight == t.weight && x.size == t.size
    ensures x.lineHeight * x.size as real == t.lineHeight as real
  {
    Text(t.family, t.weight, t.size, LineHeightIntended(t))
  }

  lemma RenderIgnoresTracking(t: Typescale, tracking: real)
    requires t.size > 0
    ensures Render(t.(tracking := tracking)) == Render(t)
    ensures RenderIntended(t.(tracking := tracking)) == RenderIntended(t)
  {
  }

  /** The component with its props; each is optional and defaults to a
      medium body text that is not prominent. Every entry is written with
      line height 1. */
  function TypographyText(variant: Option<TypescaleVariant>, size: Option<TypescaleSize>, prominent: Option<bool>): (x: Text)
    ensures x.family == "Roboto" && 11 <= x.size <= 57 && x.lineHeight == 1.0
    ensures x.weight == 700 <==>
      variant == Some(MaterialDesign.Label) && prominent == Some(true) && size != Some(MaterialDesign.TypescaleSize.Small)
    ensures variant.None? && size.None? && prominent.None? ==> x == Text("Roboto", 400, 14, 1.0)
  {
    Render(GetTypeScale(variant.GetOr(MaterialDesign.Body), size.GetOr(MaterialDesign.TypescaleSize.Medium), prominent.GetOr(false)))
  }

  /** The component as evidently intended: each entry keeps its own line
      height, 20/14 by default. */
  function TypographyTextIntended(variant: Option<TypescaleVariant>, size: Option<TypescaleSize>, prominent: Option<bool>): (x: Text)
    ensures x.family == "Roboto" && 11 <= x.size <= 57 && 1.0 < x.lineHeight < 2.0
    ensures variant.None? && size.None? && prominent.None? ==> x == Text("Roboto", 400, 14, 20.0 / 14.0)
  {
    LineHeightIntendedRecoversPixels(variant.GetOr(MaterialDesign.Body), size.GetOr(MaterialDesign.TypescaleSize.Medium), prominent.GetOr(false));
    RenderIntended(GetTypeScale(variant.GetOr(MaterialDesign.Body), size.GetOr(MaterialDesign.TypescaleSize.Medium), prominent.GetOr(false)))
  }

  /** With no props: Roboto 400 at 14 on a 20 pixel line, tracking 0.25. */
  lemma Defaults()
    ensures GetTypeScale(MaterialDesign.Body, MaterialDesign.TypescaleSize.Medium, false)
      == MaterialDesign.Typescale("Roboto", 400, 14, 0.25, 20)
    ensures MaterialDesign.GetTypeScale(MaterialDesign.Body, MaterialDesign.TypescaleSize.Medium, false)
      == MaterialDesign.Typescale("Roboto", 400, 14, 0.25, 20)
  {
  }
}
