/** Attribute readers and the text- and shape-appearance parsers of the
    Material Components adapter (TypedArrayUtils.kt). Every reader is a pure
    decision over the typed value an attribute holds. */
module TypedArrayUtils {
  import opened Wrappers
  import opened Resources
  import opened Compose

  // android.util.TypedValue
  const COMPLEX_UNIT_SHIFT := 0
  const COMPLEX_UNIT_MASK := 0xf
  const COMPLEX_UNIT_PX := 0
  const COMPLEX_UNIT_DIP := 1
  const COMPLEX_UNIT_SP := 2

  // android.graphics.Typeface
  const NORMAL := 0
  const BOLD := 1
  const ITALIC := 2

  /** `(flags and mask) != 0` for the one-bit masks BOLD and ITALIC, on a
      two's-complement int: with floor division (Dafny's `/` for a positive
      divisor) bit k of x is (x / 2^k) % 2, whatever the sign of x. */
  predicate HasFlag(flags: int, mask: int)
    requires mask == BOLD || mask == ITALIC
  {
    (flags / mask) % 2 == 1
  }

  /** A 32-bit int's two's-complement bit pattern. */
  function Bits32(x: int): bv32
    requires -0x8000_0000 <= x < 0x8000_0000
  {
    (x % 0x1_0000_0000) as bv32
  }

  /** HasFlag is the source's `(flags and mask) != 0` on a 32-bit int,
      negative values included. */
  lemma HasFlagIsBitAnd(x: int)
    requires -0x8000_0000 <= x < 0x8000_0000
    ensures HasFlag(x, BOLD) <==> Bits32(x) & 1 != 0
    ensures HasFlag(x, ITALIC) <==> Bits32(x) & 2 != 0
  {
    var u := x % 0x1_0000_0000;
    assert (u / 1) % 2 == (x / 1) % 2;
    assert (u / 2) % 2 == (x / 2) % 2;
  }

  /** TypedValue.getComplexUnit: `COMPLEX_UNIT_MASK and (data shr COMPLEX_UNIT_SHIFT)`.
      With a shift of 0 and a mask of 15 this is the floor remainder by 16. */
  function ComplexUnit(data: int): (u: int)
    ensures 0 <= u <= COMPLEX_UNIT_MASK
    ensures (data - u) % (COMPLEX_UNIT_MASK + 1) == 0
  {
    data % (COMPLEX_UNIT_MASK + 1)
  }

  /** `x shr n` on a two's-complement int: floor division by 2^n. */
  function ShiftRight(x: int, n: nat): int {
    if n == 0 then x else ShiftRight(x, n - 1) / 2
  }

  /** complexUnitCompat: the platform accessor above API 22, the same bit
      arithmetic written out below it. Both branches give the same unit. */
  function ComplexUnitCompat(sdkInt: int, data: int): (u: int)
    ensures u == ComplexUnit(data)
  {
    if sdkInt > 22 then ComplexUnit(data)
    else ShiftRight(data, COMPLEX_UNIT_SHIFT) % (COMPLEX_UNIT_MASK + 1)
  }

  /** Reference definition of the weight buckets: the nearest multiple of
      100, clamped to 100..900. */
  function NearestHundred(w: int): int {
    if w < 150 then 100 else if w >= 850 then 900 else (w + 50) / 100 * 100
  }

  /** The `textFontWeight in a..b -> FontWeight.Wnnn` arms of the text-style
      parser: a weight in 0..999 picks its 100-wide bucket, anything else
      picks none. */
  function TextFontWeightBucket(w: int): (r: Option<FontWeight>)
    ensures r.Some? <==> 0 <= w <= 999
    ensures r.Some? ==> r.value.weight == NearestHundred(w)
    ensures r.Some? ==> 100 <= r.value.weight <= 900 && r.value.weight % 100 == 0
  {
    if 0 <= w <= 149 then Some(W100)
    else if 150 <= w <= 249 then Some(W200)
    else if 250 <= w <= 349 then Some(W300)
    else if 350 <= w <= 449 then Some(W400)
    else if 450 <= w <= 549 then Some(W500)
    else if 550 <= w <= 649 then Some(W600)
    else if 650 <= w <= 749 then Some(W700)
    else if 750 <= w <= 849 then Some(W800)
    else if 850 <= w <= 999 then Some(W900)
    else None
  }

  /** A heavier requested weight never lands in a lighter bucket. */
  lemma BucketsMonotone(w1: int, w2: int)
    requires 0 <= w1 <= w2 <= 999
    ensures TextFontWeightBucket(w1).value.weight <= TextFontWeightBucket(w2).value.weight
  {
  }

  /** fontWeightOf: the same buckets, but total: out of range is W400. */
  function FontWeightOf(weight: int): (r: FontWeight)
    ensures 0 <= weight <= 999 ==> Some(r) == TextFontWeightBucket(weight)
    ensures !(0 <= weight <= 999) ==> r == W400
    ensures 100 <= r.weight <= 900 && r.weight % 100 == 0
  {
    if 0 <= weight <= 149 then W100
    else if 150 <= weight <= 249 then W200
    else if 250 <= weight <= 349 then W300
    else if 350 <= weight <= 449 then W400
    else if 450 <= weight <= 549 then W500
    else if 550 <= weight <= 649 then W600
    else if 650 <= weight <= 749 then W700
    else if 750 <= weight <= 849 then W800
    else if 850 <= weight <= 999 then W900
    else W400
  }

  /** The platform's generic font family names. */
  const FontFamilyNames: set<string> := {
    "sans-serif", "sans-serif-thin", "sans-serif-light", "sans-serif-medium",
    "sans-serif-black", "serif", "cursive", "monospace" }

  /** The named-font string table of getFontFamilyOrNull. */
  function NamedFontFamily(s: string): (r: Option<FontFamilyWithWeight>)
    ensures r.Some? <==> s in FontFamilyNames
    ensures r.Some? ==> r.value.weight in {Normal, Thin, Light, Medium, Black}
    ensures r.Some? && r.value.weight != Normal ==> r.value.fontFamily == SansSerif
  {
    match s
    case "sans-serif" => Some(FontFamilyWithWeight(SansSerif, Normal))
    case "sans-serif-thin" => Some(FontFamilyWithWeight(SansSerif, Thin))
    case "sans-serif-light" => Some(FontFamilyWithWeight(SansSerif, Light))
    case "sans-serif-medium" => Some(FontFamilyWithWeight(SansSerif, Medium))
    case "sans-serif-black" => Some(FontFamilyWithWeight(SansSerif, Black))
    case "serif" => Some(FontFamilyWithWeight(Serif, Normal))
    case "cursive" => Some(FontFamilyWithWeight(Cursive, Normal))
    case "monospace" => Some(FontFamilyWithWeight(Monospace, Normal))
    case _ => None
  }

  predicate StartsWith(s: string, prefix: string) {
    |prefix| <= |s| && s[..|prefix|] == prefix
  }

  predicate EndsWith(s: string, suffix: string) {
    |suffix| <= |s| && s[|s| - |suffix|..] == suffix
  }

  /** A string value that names a font resource: it came from a resource
      and its path starts with res/font. */
  predicate IsFontResource(v: AttrValue) {
    v.Str? && v.resourceId != 0 && StartsWith(v.s, "res/font")
  }

  /** A font resource that is parsed as an XML family (API 23 and up). */
  predicate IsXmlFamily(ctx: Context, v: AttrValue) {
    v.Str? && ctx.sdkInt >= 23 && EndsWith(v.s, ".xml")
  }

  /** One parsed font file as a toolkit Font. */
  function FontOf(e: FontFileEntry): Font {
    Font(e.resourceId, FontWeightOf(e.weight), if e.isItalic then Italic else NormalStyle)
  }

  /** `result.entries.map { font -> Font(...) }`. */
  function FontsOf(entries: seq<FontFileEntry>): seq<Font> {
    if entries == [] then [] else [FontOf(entries[0])] + FontsOf(entries[1..])
  }

  /** The family keeps the parser's fonts one for one, in order. */
  lemma {:induction false} FontsOfPointwise(entries: seq<FontFileEntry>)
    ensures |FontsOf(entries)| == |entries|
    ensures forall i :: 0 <= i < |entries| ==> FontsOf(entries)[i] == FontOf(entries[i])
  {
    if entries != [] {
      FontsOfPointwise(entries[1..]);
      assert FontsOf(entries) == [FontOf(entries[0])] + FontsOf(entries[1..]);
    }
  }

  /** Every font of a parsed family has a bucketed weight in 100..900. */
  lemma FontsOfWeights(entries: seq<FontFileEntry>)
    ensures forall f :: f in FontsOf(entries) ==>
      100 <= f.weight.weight <= 900 && f.weight.weight % 100 == 0
  {
    FontsOfPointwise(entries);
  }

  /** parseXmlFontFamily: a family of font files becomes a family of fonts,
      one per file and in the parser's order; anything else gives null. */
  function ParseXmlFontFamily(ctx: Context, resourceId: int): (r: Option<FontFamily>)
    ensures r.Some? <==> ctx.parseFontXml(resourceId).FontFamilyFiles?
    ensures r.Some? ==> var entries := ctx.parseFontXml(resourceId).entries;
      && r.value.Fonts? && |r.value.fonts| == |entries|
      && forall i :: 0 <= i < |entries| ==>
           r.value.fonts[i] == Font(entries[i].resourceId, FontWeightOf(entries[i].weight),
                                    if entries[i].isItalic then Italic else NormalStyle)
  {
    match ctx.parseFontXml(resourceId)
    case FontFamilyFiles(entries) =>
      FontsOfPointwise(entries);
      Some(Fonts(FontsOf(entries)))
    case OtherFontEntry => None
  }

  /** A single font resource as a family: `Font(resourceId).toFontFamily()`. */
  function SingleFontFamily(resourceId: int): FontFamily {
    Fonts([Font(resourceId, Normal, NormalStyle)])
  }

  /** getFontFamilyOrNull: only a string value can name a family. A name in
      the table wins; failing that, a font resource loads as a single font,
      or as a parsed XML family on API 23+ for an .xml path. */
  function GetFontFamilyOrNull(ctx: Context, a: AttrSet, x: Attr): (r: Option<FontFamilyWithWeight>)
    ensures r.Some? ==> x in a && a[x].Str?
    ensures x in a && a[x].Str? && a[x].s in FontFamilyNames ==> r == NamedFontFamily(a[x].s)
    ensures x in a && a[x].Str? && a[x].s !in FontFamilyNames ==>
      (r.Some? <==> IsFontResource(a[x]) &&
                    (IsXmlFamily(ctx, a[x]) ==> ParseXmlFontFamily(ctx, a[x].resourceId).Some?))
    ensures x in a && a[x].Str? && a[x].s !in FontFamilyNames && r.Some? ==>
      r.value.weight == Normal &&
      r.value.fontFamily == (if IsXmlFamily(ctx, a[x]) then ParseXmlFontFamily(ctx, a[x].resourceId).value
                             else SingleFontFamily(a[x].resourceId))
  {
    if x in a && a[x].Str? then
      var v := a[x];
      match NamedFontFamily(v.s)
      case Some(f) => Some(f)
      case None =>
        if v.resourceId != 0 && StartsWith(v.s, "res/font") then
          if ctx.sdkInt >= 23 && EndsWith(v.s, ".xml") then
            match ParseXmlFontFamily(ctx, v.resourceId)
            case Some(family) => Some(FontFamilyWithWeight(family, Normal))
            case None => None
          else
            Some(FontFamilyWithWeight(SingleFontFamily(v.resourceId), Normal))
        else None
    else None
  }

  /** getComposeColor: the fallback when the attribute is undefined, the
      colour it holds otherwise; getColorOrThrow fails on a non-colour. */
  function GetComposeColor(a: AttrSet, x: Attr, fallback: Color): (r: Result<Color, Failure>)
    ensures x !in a ==> r == Ok(fallback)
    ensures x in a ==> (r.Ok? <==> a[x].ColorVal?)
    ensures x in a && r.Ok? ==> r.value == Specified(a[x].argb)
    ensures x in a && r.Err? ==> r.error == NotAColor(x)
    ensures fallback == UnspecifiedColor ==> (r == Ok(UnspecifiedColor) <==> x !in a)
  {
    if x !in a then Ok(fallback)
    else if a[x].ColorVal? then Ok(Specified(a[x].argb))
    else Err(NotAColor(x))
  }

  /** getTextUnitOrNull: only a dimension gives a unit. SP stays sp, DIP
      becomes em, any other unit is flattened to px and converted to sp. */
  function GetTextUnitOrNull(ctx: Context, a: AttrSet, x: Attr, density: Density): (r: Option<TextUnit>)
    ensures r.Some? <==> x in a && a[x].Dim?
    ensures r.Some? ==> !r.value.UnspecifiedUnit?
    ensures r.Some? ==> var unit := ComplexUnit(a[x].data);
      && (unit == COMPLEX_UNIT_SP ==> r.value == Sp(ComplexToFloat(a[x].data)))
      && (unit == COMPLEX_UNIT_DIP ==> r.value == Em(ComplexToFloat(a[x].data)))
      && (unit != COMPLEX_UNIT_SP && unit != COMPLEX_UNIT_DIP ==>
            r.value == Sp(PxToSp(DimensionToPx(a[x].data), density)))
  {
    if x in a && a[x].Dim? then
      var data := a[x].data;
      var unit := ComplexUnitCompat(ctx.sdkInt, data);
      if unit == COMPLEX_UNIT_SP then Some(Sp(ComplexToFloat(data)))
      else if unit == COMPLEX_UNIT_DIP then Some(Em(ComplexToFloat(data)))
      else Some(Sp(PxToSp(DimensionToPx(data), density)))
    else None
  }

  /** getTextUnit: getTextUnitOrNull, or the fallback. */
  function GetTextUnit(ctx: Context, a: AttrSet, x: Attr, density: Density, fallback: TextUnit): (r: TextUnit)
    ensures !(x in a && a[x].Dim?) ==> r == fallback
    ensures x in a && a[x].Dim? ==> Some(r) == GetTextUnitOrNull(ctx, a, x, density)
  {
    GetTextUnitOrNull(ctx, a, x, density).GetOr(fallback)
  }

  /** getCornerSizeOrNull: a dimension or a fraction gives a corner size,
      every other type gives null. DIP is kept in dp, PX as a float, any
      other unit as the integer pixel size; a fraction as its float value. */
  function GetCornerSizeOrNull(ctx: Context, a: AttrSet, x: Attr): (r: Option<CornerSize>)
    ensures r.Some? <==> x in a && (a[x].Dim? || a[x].Fraction?)
    ensures r.Some? && a[x].Fraction? ==> r.value == FloatSize(FractionOf(a[x].data))
    ensures r.Some? && a[x].Dim? ==> var unit := ComplexUnit(a[x].data);
      && (unit == COMPLEX_UNIT_DIP ==> r.value == DpSize(ComplexToFloat(a[x].data)))
      && (unit == COMPLEX_UNIT_PX ==> r.value == FloatSize(ComplexToFloat(a[x].data)))
      && (unit != COMPLEX_UNIT_DIP && unit != COMPLEX_UNIT_PX ==>
            r.value == IntSize(DimensionPixelSize(a[x].data)))
  {
    if x in a then
      match a[x]
      case Dim(data) =>
        var unit := ComplexUnitCompat(ctx.sdkInt, data);
        if unit == COMPLEX_UNIT_DIP then Some(DpSize(ComplexToFloat(data)))
        else if unit == COMPLEX_UNIT_PX then Some(FloatSize(ComplexToFloat(data)))
        else Some(IntSize(DimensionPixelSize(data)))
      case Fraction(data) => Some(FloatSize(FractionOf(data)))
      case _ => None
    else None
  }

  /** The `textStyle` flags as the source reads them: `getInt(..., -1)`. */
  function TextStyleFlagsAsWritten(a: AttrSet): int {
    GetInt(a, AndroidTextStyle, -1)
  }

  /** An appearance without `android:textStyle` reads, as written, as both
      italic and bold: with no textFontWeight either, the style comes out
      italic and bold whatever the family implies. */
  lemma AbsentTextStyleIsBoldItalicAsWritten(a: AttrSet, fontFamily: Option<FontFamilyWithWeight>)
    requires AndroidTextStyle !in a && AndroidTextFontWeight !in a
    ensures HasFlag(TextStyleFlagsAsWritten(a), ITALIC) && HasFlag(TextStyleFlagsAsWritten(a), BOLD)
    ensures FontStyleOf(TextStyleFlagsAsWritten(a)) == Italic
    ensures WeightOf(GetInt(a, AndroidTextFontWeight, -1), TextStyleFlagsAsWritten(a), fontFamily) == Some(Bold)
  {
  }

  /** With the flags read as Typeface.NORMAL when absent, such an
      appearance is upright and takes the family's implied weight. */
  lemma AbsentTextStyleIsPlain(a: AttrSet, fontFamily: Option<FontFamilyWithWeight>)
    requires AndroidTextStyle !in a && AndroidTextFontWeight !in a
    ensures FontStyleOf(TextStyleFlags(a)) == NormalStyle
    ensures WeightOf(GetInt(a, AndroidTextFontWeight, -1), TextStyleFlags(a), fontFamily)
         == (if fontFamily.Some? then Some(fontFamily.value.weight) else None)
  {
  }

  /** The `textStyle` flags with an absent attribute read as Typeface.NORMAL. */
  function TextStyleFlags(a: AttrSet): (flags: int)
    ensures AndroidTextStyle !in a ==> !HasFlag(flags, ITALIC) && !HasFlag(flags, BOLD)
    ensures AndroidTextStyle in a && a[AndroidTextStyle].IntVal? ==> flags == TextStyleFlagsAsWritten(a)
  {
    GetInt(a, AndroidTextStyle, NORMAL)
  }

  /** The fontFamily arm: a resolved family, else the `typeface` enum
      (1 sans, 2 serif, 3 monospace), else none. */
  function FamilyOf(fontFamily: Option<FontFamilyWithWeight>, typeface: int): (r: Option<FontFamily>)
    ensures fontFamily.Some? ==> r == Some(fontFamily.value.fontFamily)
    ensures fontFamily.None? ==> r == (if typeface == 1 then Some(SansSerif)
                                       else if typeface == 2 then Some(Serif)
                                       else if typeface == 3 then Some(Monospace)
                                       else None)
  {
    if fontFamily.Some? then Some(fontFamily.value.fontFamily)
    else if typeface == 1 then Some(SansSerif)
    else if typeface == 2 then Some(Serif)
    else if typeface == 3 then Some(Monospace)
    else None
  }

  /** The fontWeight arm: an in-range textFontWeight wins, then the BOLD
      flag, then the weight the family name implies; otherwise none. */
  function WeightOf(textFontWeight: int, flags: int, fontFamily: Option<FontFamilyWithWeight>): (r: Option<FontWeight>)
    ensures 0 <= textFontWeight <= 999 ==> r == TextFontWeightBucket(textFontWeight)
    ensures !(0 <= textFontWeight <= 999) && HasFlag(flags, BOLD) ==> r == Some(Bold)
    ensures !(0 <= textFontWeight <= 999) && !HasFlag(flags, BOLD) ==>
      r == (if fontFamily.Some? then Some(fontFamily.value.weight) else None)
  {
    match TextFontWeightBucket(textFontWeight)
    case Some(w) => Some(w)
    case None =>
      if HasFlag(flags, BOLD) then Some(Bold)
      else if fontFamily.Some? then Some(fontFamily.value.weight)
      else None
  }

  function FontStyleOf(flags: int): FontStyle {
    if HasFlag(flags, ITALIC) then Italic else NormalStyle
  }

  /** The shadow arm: a shadow exists only when a shadow colour is set. */
  function ShadowOf(a: AttrSet, shadowColor: Color): (r: Option<Shadow>)
    ensures r.Some? <==> shadowColor.Specified?
    ensures r.Some? ==> r.value.color == shadowColor
  {
    if shadowColor != UnspecifiedColor then
      Some(Shadow(shadowColor,
                  Offset(GetFloat(a, AndroidShadowDx, Const(0)), GetFloat(a, AndroidShadowDy, Const(0))),
                  GetFloat(a, AndroidShadowRadius, Const(0))))
    else None
  }

  /** The text colour, read only when text colours are requested. */
  function TextColorOf(a: AttrSet, setTextColors: bool): Result<Color, Failure> {
    if setTextColors then GetComposeColor(a, AndroidTextColor, UnspecifiedColor) else Ok(UnspecifiedColor)
  }

  /** Which reading of an absent `android:textStyle` a text-style parser
      uses: the source's `getInt(..., -1)`, or Typeface.NORMAL. */
  datatype TextStyleRead = AsWritten | Corrected

  function FlagsRead(read: TextStyleRead, a: AttrSet): (flags: int)
    ensures read == AsWritten ==> flags == TextStyleFlagsAsWritten(a)
    ensures read == Corrected ==> flags == TextStyleFlags(a)
  {
    match read
    case AsWritten => TextStyleFlagsAsWritten(a)
    case Corrected => TextStyleFlags(a)
  }

  /** textStyleFromTextAppearance for the style resource `id`, with the
      `textStyle` flags read as `read` says. */
  function TextStyleFromTextAppearance(ctx: Context, density: Density, id: int, setTextColors: bool, read: TextStyleRead)
    : (r: Result<TextStyle, Failure>)
    // only the two colour reads can fail
    ensures var a := ctx.styleOf(id);
      r.Err? <==>
        || (setTextColors && AndroidTextColor in a && !a[AndroidTextColor].ColorVal?)
        || (AndroidShadowColor in a && !a[AndroidShadowColor].ColorVal?)
    // colour: unspecified unless requested, then the attribute's colour if any
    ensures var a := ctx.styleOf(id); r.Ok? ==>
      r.value.color == (if setTextColors && AndroidTextColor in a
                        then Specified(a[AndroidTextColor].argb) else UnspecifiedColor)
    // size: the dimension if any, else unspecified
    ensures var a := ctx.styleOf(id); r.Ok? ==>
      (AndroidTextSize in a && a[AndroidTextSize].Dim? <==> !r.value.fontSize.UnspecifiedUnit?)
    ensures var a := ctx.styleOf(id); r.Ok? && AndroidTextSize in a && a[AndroidTextSize].Dim? ==>
      Some(r.value.fontSize) == GetTextUnitOrNull(ctx, a, AndroidTextSize, density)
    // line height: app lineHeight, then android:lineHeight, then unspecified
    ensures var a := ctx.styleOf(id); r.Ok? ==>
      r.value.lineHeight ==
        (if AppLineHeight in a && a[AppLineHeight].Dim? then GetTextUnitOrNull(ctx, a, AppLineHeight, density).value
         else if AndroidLineHeight in a && a[AndroidLineHeight].Dim? then GetTextUnitOrNull(ctx, a, AndroidLineHeight, density).value
         else UnspecifiedUnit)
    // font family: app fontFamily, then android:fontFamily, then typeface
    ensures var a := ctx.styleOf(id); r.Ok? ==>
      var app := GetFontFamilyOrNull(ctx, a, AppFontFamily);
      var android := GetFontFamilyOrNull(ctx, a, AndroidFontFamily);
      && (app.Some? ==> r.value.fontFamily == Some(app.value.fontFamily))
      && (app.None? && android.Some? ==> r.value.fontFamily == Some(android.value.fontFamily))
      && (app.None? && android.None? ==> r.value.fontFamily == FamilyOf(None, GetInt(a, AndroidTypeface, -1)))
    // style: italic exactly when the ITALIC flag is set
    ensures var a := ctx.styleOf(id); r.Ok? ==>
      r.value.fontStyle == Some(if HasFlag(FlagsRead(read, a), ITALIC) then Italic else NormalStyle)
    // weight: textFontWeight bucket, then BOLD, then the family's weight
    ensures var a := ctx.styleOf(id); r.Ok? ==>
      var w := GetInt(a, AndroidTextFontWeight, -1);
      && (0 <= w <= 999 ==> r.value.fontWeight == TextFontWeightBucket(w))
      && (!(0 <= w <= 999) && HasFlag(FlagsRead(read, a), BOLD) ==> r.value.fontWeight == Some(Bold))
      && (!(0 <= w <= 999) && !HasFlag(FlagsRead(read, a), BOLD) ==>
            var family := GetFontFamilyOrNull(ctx, a, AppFontFamily).OrElse(GetFontFamilyOrNull(ctx, a, AndroidFontFamily));
            r.value.fontWeight == (if family.Some? then Some(family.value.weight) else None))
    // shadow: present exactly when a shadow colour is set, with that colour,
    // the dx/dy offset and the radius (0 when absent)
    ensures var a := ctx.styleOf(id); r.Ok? ==>
      r.value.shadow ==
        (if AndroidShadowColor in a
         then Some(Shadow(Specified(a[AndroidShadowColor].argb),
                          Offset(GetFloat(a, AndroidShadowDx, Const(0)), GetFloat(a, AndroidShadowDy, Const(0))),
                          GetFloat(a, AndroidShadowRadius, Const(0))))
         else None)
    // letter spacing: the float in em, or exactly 0.em
    ensures var a := ctx.styleOf(id); r.Ok? ==>
      r.value.letterSpacing == Em(if AndroidLetterSpacing in a then GetFloat(a, AndroidLetterSpacing, Const(0)) else Const(0))
    ensures var a := ctx.styleOf(id); r.Ok? ==>
      r.value.fontFeatureSettings == GetString(a, AndroidFontFeatureSettings)
  {
    var a := ctx.styleOf(id);
    var flags := FlagsRead(read, a);
    var textFontWeight := GetInt(a, AndroidTextFontWeight, -1);
    var typeface := GetInt(a, AndroidTypeface, -1);
    var fontFamily := GetFontFamilyOrNull(ctx, a, AppFontFamily).OrElse(GetFontFamilyOrNull(ctx, a, AndroidFontFamily));
    var color :- TextColorOf(a, setTextColors);
    var shadowColor :- GetComposeColor(a, AndroidShadowColor, UnspecifiedColor);
    Ok(TextStyle(
      color,
      GetTextUnit(ctx, a, AndroidTextSize, density, UnspecifiedUnit),
      GetTextUnitOrNull(ctx, a, AppLineHeight, density)
        .OrElse(GetTextUnitOrNull(ctx, a, AndroidLineHeight, density))
        .GetOr(UnspecifiedUnit),
      FamilyOf(fontFamily, typeface),
      Some(FontStyleOf(flags)),
      WeightOf(textFontWeight, flags, fontFamily),
      GetString(a, AndroidFontFeatureSettings),
      ShadowOf(a, shadowColor),
      Em(if AndroidLetterSpacing in a then GetFloat(a, AndroidLetterSpacing, Const(0)) else Const(0))))
  }

  /** The whole parser on an appearance that sets neither `textStyle` nor
      `textFontWeight`: as written it yields italic bold text, with the
      corrected read upright text at the family's implied weight. Which read
      is used never decides whether parsing fails. */
  lemma AbsentTextStyleParses(ctx: Context, density: Density, id: int, setTextColors: bool)
    requires AndroidTextStyle !in ctx.styleOf(id) && AndroidTextFontWeight !in ctx.styleOf(id)
    ensures var asWritten := TextStyleFromTextAppearance(ctx, density, id, setTextColors, AsWritten);
            var corrected := TextStyleFromTextAppearance(ctx, density, id, setTextColors, Corrected);
      && (asWritten.Ok? <==> corrected.Ok?)
      && (asWritten.Ok? ==> asWritten.value.fontStyle == Some(Italic) && asWritten.value.fontWeight == Some(Bold))
      && (corrected.Ok? ==>
            var a := ctx.styleOf(id);
            var family := GetFontFamilyOrNull(ctx, a, AppFontFamily).OrElse(GetFontFamilyOrNull(ctx, a, AndroidFontFamily));
            && corrected.value.fontStyle == Some(NormalStyle)
            && corrected.value.fontWeight == (if family.Some? then Some(family.value.weight) else None))
  {
    var a := ctx.styleOf(id);
    var family := GetFontFamilyOrNull(ctx, a, AppFontFamily).OrElse(GetFontFamilyOrNull(ctx, a, AndroidFontFamily));
    AbsentTextStyleIsBoldItalicAsWritten(a, family);
    AbsentTextStyleIsPlain(a, family);
  }

  /** One corner of a shape appearance: the specific corner attribute, else
      `cornerSize`, else the fallback's corner. */
  function CornerOrDefault(ctx: Context, a: AttrSet, corner: Attr, fallback: CornerSize): (r: CornerSize)
    ensures GetCornerSizeOrNull(ctx, a, corner).Some? ==> r == GetCornerSizeOrNull(ctx, a, corner).value
    ensures GetCornerSizeOrNull(ctx, a, corner).None? && GetCornerSizeOrNull(ctx, a, AppCornerSize).Some? ==>
      r == GetCornerSizeOrNull(ctx, a, AppCornerSize).value
    ensures GetCornerSizeOrNull(ctx, a, corner).None? && GetCornerSizeOrNull(ctx, a, AppCornerSize).None? ==>
      r == fallback
  {
    GetCornerSizeOrNull(ctx, a, corner).OrElse(GetCornerSizeOrNull(ctx, a, AppCornerSize)).GetOr(fallback)
  }

  /** The cornerFamily enum: 0 is rounded, 1 is cut, anything else throws. */
  function CornerFamilyOf(family: int): (r: Result<CornerFamily, Failure>)
    ensures r.Ok? <==> family == 0 || family == 1
    ensures r.Ok? ==> (r.value == Rounded <==> family == 0)
    ensures r.Err? ==> r.error == UnknownCornerFamily(family)
  {
    if family == 0 then Ok(Rounded)
    else if family == 1 then Ok(Cut)
    else Err(UnknownCornerFamily(family))
  }

  /** The same shape with start and end swapped. */
  function Mirror(s: CornerBasedShape): CornerBasedShape {
    CornerBasedShape(s.family, s.topEnd, s.topStart, s.bottomStart, s.bottomEnd)
  }

  /** parseShapeAppearance for the style resource `id`: left and right are
      start and end under LTR and end and start under RTL. */
  function ParseShapeAppearance(ctx: Context, id: int, fallbackShape: CornerBasedShape, layoutDirection: LayoutDirection)
    : (r: Result<CornerBasedShape, Failure>)
    ensures var family := GetInt(ctx.styleOf(id), AppCornerFamily, 0);
      && (r.Err? <==> family != 0 && family != 1)
      && (r.Err? ==> r.error == UnknownCornerFamily(family))
      && (r.Ok? ==> r.value.family == (if family == 0 then Rounded else Cut))
    ensures var a := ctx.styleOf(id); var isRtl := layoutDirection == Rtl; r.Ok? ==>
      && r.value.topStart == CornerOrDefault(ctx, a, if isRtl then CornerSizeTopRight else CornerSizeTopLeft, fallbackShape.topStart)
      && r.value.topEnd == CornerOrDefault(ctx, a, if isRtl then CornerSizeTopLeft else CornerSizeTopRight, fallbackShape.topEnd)
      && r.value.bottomEnd == CornerOrDefault(ctx, a, if isRtl then CornerSizeBottomLeft else CornerSizeBottomRight, fallbackShape.bottomEnd)
      && r.value.bottomStart == CornerOrDefault(ctx, a, if isRtl then CornerSizeBottomRight else CornerSizeBottomLeft, fallbackShape.bottomStart)
  {
    var a := ctx.styleOf(id);
    var isRtl := layoutDirection == Rtl;
    var family :- CornerFamilyOf(GetInt(a, AppCornerFamily, 0));
    Ok(CornerBasedShape(
      family,
      CornerOrDefault(ctx, a, if isRtl then CornerSizeTopRight else CornerSizeTopLeft, fallbackShape.topStart),
      CornerOrDefault(ctx, a, if isRtl then CornerSizeTopLeft else CornerSizeTopRight, fallbackShape.topEnd),
      CornerOrDefault(ctx, a, if isRtl then CornerSizeBottomLeft else CornerSizeBottomRight, fallbackShape.bottomEnd),
      CornerOrDefault(ctx, a, if isRtl then CornerSizeBottomRight else CornerSizeBottomLeft, fallbackShape.bottomStart)))
  }

  /** Parsing under RTL is parsing under LTR against the mirrored fallback,
      then mirroring. */
  lemma ParseShapeAppearanceRtlMirrorsLtr(ctx: Context, id: int, fallbackShape: CornerBasedShape)
    ensures var rtl := ParseShapeAppearance(ctx, id, fallbackShape, Rtl);
            var ltr := ParseShapeAppearance(ctx, id, Mirror(fallbackShape), Ltr);
      && (rtl.Ok? <==> ltr.Ok?)
      && (rtl.Ok? ==> rtl.value == Mirror(ltr.value))
  {
  }

  /** A shape appearance that sets no corner keeps the fallback's corners
      under either direction. */
  lemma ParseShapeAppearanceNoCorners(ctx: Context, id: int, fallbackShape: CornerBasedShape, dir: LayoutDirection)
    requires var a := ctx.styleOf(id);
      forall x :: x in {AppCornerSize, CornerSizeTopLeft, CornerSizeTopRight, CornerSizeBottomLeft, CornerSizeBottomRight} ==> x !in a
    ensures var r := ParseShapeAppearance(ctx, id, fallbackShape, dir);
      r.Ok? ==> r.value == fallbackShape.(family := r.value.family)
  {
  }
}
