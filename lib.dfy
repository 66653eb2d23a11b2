/** `ArgbExt::as_rgba` of src/lib.rs: a colour's CSS-like text, with the alpha
    channel last and written as its raw 0-255 byte. */
module Lib {
  import opened Format
  import opened Wrappers

  type u8 = x: nat | x < 256

  /** material_colors' `Argb`: four bytes. */
  datatype Argb = Argb(alpha: u8, red: u8, green: u8, blue: u8)

  /** "rgb(<red>, <green>, <blue>, <alpha>)" in decimal. */
  function AsRgba(c: Argb): (s: string)
    ensures 15 <= |s| <= 23
    ensures Count(s, ',') == 3
    ensures ParseRgba(s) == Some(c)
  {
    AsRgbaShape(c);
    Layout(Decimal(c.red), Decimal(c.green), Decimal(c.blue), Decimal(c.alpha))
  }

  /** Splits `s` at every `sep`; the pieces hold no `sep`. */
  function Split(s: string, sep: char): (r: seq<string>)
    ensures |r| >= 1
    ensures forall i :: 0 <= i < |r| ==> sep !in r[i]
    decreases |s|
  {
    if s == [] then [[]]
    else if s[0] == sep then [[]] + Split(s[1..], sep)
    else
      var rest := Split(s[1..], sep);
      [[s[0]] + rest[0]] + rest[1..]
  }

  /** A decimal byte with no sign and no padding. */
  function ParseByte(t: string): Option<u8> {
    if t != [] && (forall k :: 0 <= k < |t| ==> IsDigit(t[k])) && ParseDecimal(t) < 256
    then Some(ParseDecimal(t))
    else None
  }

  /** A field after a ", " separator: a space, then a byte. */
  function ParseSpacedByte(t: string): Option<u8> {
    if |t| >= 1 && t[0] == ' ' then ParseByte(t[1..]) else None
  }

  /** Reads the text `as_rgba` writes back into a colour. */
  function ParseRgba(s: string): Option<Argb> {
    if |s| >= 5 && s[..4] == "rgb(" && s[|s| - 1] == ')' then
      var fs := Split(s[4..|s| - 1], ',');
      if |fs| == 4 then
        match (ParseByte(fs[0]), ParseSpacedByte(fs[1]), ParseSpacedByte(fs[2]), ParseSpacedByte(fs[3]))
        case (Some(r), Some(g), Some(b), Some(a)) => Some(Argb(a, r, g, b))
        case _ => None
      else None
    else None
  }

  lemma {:induction false} SplitNoSeparator(a: string, sep: char)
    requires forall k :: 0 <= k < |a| ==> a[k] != sep
    ensures Split(a, sep) == [a]
    decreases |a|
  {
    if a != [] {
      SplitNoSeparator(a[1..], sep);
      assert [a[0]] + a[1..] == a;
    }
  }

  lemma {:induction false} SplitAtFirst(a: string, sep: char, b: string)
    requires forall k :: 0 <= k < |a| ==> a[k] != sep
    ensures Split(a + [sep] + b, sep) == [a] + Split(b, sep)
    decreases |a|
  {
    if a == [] {
      assert a + [sep] + b == [sep] + b;
      assert ([sep] + b)[1..] == b;
    } else {
      var s := a + [sep] + b;
      assert s[0] == a[0];
      assert s[1..] == a[1..] + [sep] + b;
      SplitAtFirst(a[1..], sep, b);
      assert [a[0]] + a[1..] == a;
    }
  }

  lemma DecimalHasNoComma(n: nat)
    ensures forall k :: 0 <= k < |Decimal(n)| ==> Decimal(n)[k] != ','
    ensures forall k :: 0 <= k < |" " + Decimal(n)| ==> (" " + Decimal(n))[k] != ','
  {
  }

  lemma ParseByteOfDecimal(n: u8)
    ensures ParseByte(Decimal(n)) == Some(n)
    ensures ParseSpacedByte(" " + Decimal(n)) == Some(n)
  {
    ParseDecimalInvertsDecimal(n);
    assert (" " + Decimal(n))[1..] == Decimal(n);
  }

  lemma DecimalByteLength(n: u8)
    ensures 1 <= |Decimal(n)| <= 3
  {
    DecimalLength(n);
  }

  /** The text `as_rgba` lays out around four rendered fields. */
  function Layout(r: string, g: string, b: string, a: string): string {
    "rgb(" + Fields(r, g, b, a) + ")"
  }

  /** The four fields joined by ", ". */
  function Fields(r: string, g: string, b: string, a: string): string {
    r + ", " + g + ", " + b + ", " + a
  }

  predicate NoComma(t: string) {
    forall k :: 0 <= k < |t| ==> t[k] != ','
  }

  lemma LayoutLength(r: string, g: string, b: string, a: string)
    requires 1 <= |r| <= 3 && 1 <= |g| <= 3 && 1 <= |b| <= 3 && 1 <= |a| <= 3
    ensures 15 <= |Layout(r, g, b, a)| <= 23
  {
  }

  lemma LayoutCommas(r: string, g: string, b: string, a: string)
    requires NoComma(r) && NoComma(g) && NoComma(b) && NoComma(a)
    ensures Count(Layout(r, g, b, a), ',') == 3
  {
    FieldsCommas(r, g, b, a);
    CountAbsent("rgb(", ',');
    CountAbsent(")", ',');
    CountAppend("rgb(", Fields(r, g, b, a), ',');
    CountAppend("rgb(" + Fields(r, g, b, a), ")", ',');
  }

  lemma FieldsCommas(r: string, g: string, b: string, a: string)
    requires NoComma(r) && NoComma(g) && NoComma(b) && NoComma(a)
    ensures Count(Fields(r, g, b, a), ',') == 3
  {
    var sep := ", ";
    assert Count(sep, ',') == 1;
    CountAbsent(r, ',');
    CountAbsent(g, ',');
    CountAbsent(b, ',');
    CountAbsent(a, ',');
    var p1 := r + sep;
    var p2 := p1 + g;
    var p3 := p2 + sep;
    var p4 := p3 + b;
    var p5 := p4 + sep;
    CountAppend(r, sep, ',');
    CountAppend(p1, g, ',');
    CountAppend(p2, sep, ',');
    CountAppend(p3, b, ',');
    CountAppend(p4, sep, ',');
    CountAppend(p5, a, ',');
  }

  lemma LayoutFrame(r: string, g: string, b: string, a: string)
    ensures var s := Layout(r, g, b, a);
      |s| >= 5 && s[..4] == "rgb(" && s[|s| - 1] == ')' && s[4..|s| - 1] == Fields(r, g, b, a)
  {
  }

  /** The fields regrouped from the right, one separator at a time. */
  lemma FieldsRegroup(r: string, g: string, b: string, a: string)
    ensures Fields(r, g, b, a) == r + [','] + ((" " + g) + [','] + ((" " + b) + [','] + (" " + a)))
  {
    var tail := (" " + b) + [','] + (" " + a);
    assert ", " + b + ", " + a == [','] + tail;
    var mid := (" " + g) + [','] + tail;
    assert ", " + g + ([','] + tail) == [','] + mid;
  }

  lemma LayoutFields(r: string, g: string, b: string, a: string)
    requires NoComma(r) && NoComma(g) && NoComma(b) && NoComma(a)
    ensures var s := Layout(r, g, b, a);
      |s| >= 5 && s[..4] == "rgb(" && s[|s| - 1] == ')'
      && Split(s[4..|s| - 1], ',') == [r, " " + g, " " + b, " " + a]
  {
    var g', b', a' := " " + g, " " + b, " " + a;
    LayoutFrame(r, g, b, a);
    FieldsRegroup(r, g, b, a);
    assert NoComma(g') && NoComma(b') && NoComma(a');
    SplitAtFirst(r, ',', g' + [','] + (b' + [','] + a'));
    SplitAtFirst(g', ',', b' + [','] + a');
    SplitAtFirst(b', ',', a');
    SplitNoSeparator(a', ',');
  }

  /** The facts `AsRgba` promises, proved on its text. */
  lemma AsRgbaShape(c: Argb)
    ensures var s := Layout(Decimal(c.red), Decimal(c.green), Decimal(c.blue), Decimal(c.alpha));
      15 <= |s| <= 23 && Count(s, ',') == 3 && ParseRgba(s) == Some(c)
  {
    var r, g, b, a := Decimal(c.red), Decimal(c.green), Decimal(c.blue), Decimal(c.alpha);
    DecimalByteLength(c.red);
    DecimalByteLength(c.green);
    DecimalByteLength(c.blue);
    DecimalByteLength(c.alpha);
    LayoutLength(r, g, b, a);
    DecimalHasNoComma(c.red);
    DecimalHasNoComma(c.green);
    DecimalHasNoComma(c.blue);
    DecimalHasNoComma(c.alpha);
    LayoutCommas(r, g, b, a);
    LayoutFields(r, g, b, a);
    ParseByteOfDecimal(c.red);
    ParseByteOfDecimal(c.green);
    ParseByteOfDecimal(c.blue);
    ParseByteOfDecimal(c.alpha);
  }
}
