/** The Material Components assembler (MaterialThemeFromMdcTheme.kt): reads
    a colour palette, a typography and three shapes from a theme extending
    Theme.MaterialComponents, for the older toolkit's MaterialTheme. This
    file keeps private copies of the attribute readers; the unit, corner-size
    and colour readers are the same code as in TypedArrayUtils and are used
    from there. */
module MaterialThemeFromMdcTheme {
  import opened Wrappers
  import opened Resources
  import opened Compose
  import opened TypedArrayUtils

  /** The three components; each is absent when its read flag is off. */
  datatype ThemeParameters = ThemeParameters(
    colors: Option<ColorPalette>,
    typography: Option<Typography>,
    shapes: Option<Shapes>)

  /** The theme the composable installs. */
  datatype MaterialValues = MaterialValues(colors: ColorPalette, typography: Typography, shapes: Shapes)

  // ---------------------------------------------------------------- fonts

  /** The named-font table as written: two keys are misspelt "san-serif". */
  function LegacyNamedFontFamilyAsWritten(s: string): Option<FontFamilyWithWeight> {
    match s
    case "san-serif" => Some(FontFamilyWithWeight(SansSerif, Normal))
    case "sans-serif-thin" => Some(FontFamilyWithWeight(SansSerif, Thin))
    case "san-serif-light" => Some(FontFamilyWithWeight(SansSerif, Light))
    case "sans-serif-medium" => Some(FontFamilyWithWeight(SansSerif, Medium))
    case "sans-serif-black" => Some(FontFamilyWithWeight(SansSerif, Black))
    case "serif" => Some(FontFamilyWithWeight(Serif, Normal))
    case "cursive" => Some(FontFamilyWithWeight(Cursive, Normal))
    case "monospace" => Some(FontFamilyWithWeight(Monospace, Normal))
    case _ => None
  }

  /** As written, the platform's "sans-serif" and "sans-serif-light" are not
      recognised, while the non-names "san-serif" and "san-serif-light" are. */
  lemma LegacyTableMissesSansSerif()
    ensures LegacyNamedFontFamilyAsWritten("sans-serif") == None
    ensures LegacyNamedFontFamilyAsWritten("sans-serif-light") == None
    ensures NamedFontFamily("sans-serif") == Some(FontFamilyWithWeight(SansSerif, Normal))
    ensures NamedFontFamily("sans-serif-light") == Some(FontFamilyWithWeight(SansSerif, Light))
    ensures LegacyNamedFontFamilyAsWritten("san-serif").Some? && "san-serif" !in FontFamilyNames
  {
  }

  /** Apart from the two misspelt keys, the table as written is the
      platform-name table. */
  lemma LegacyTableAgreesElsewhere(s: string)
    requires s !in {"sans-serif", "sans-serif-light", "san-serif", "san-serif-light"}
    ensures LegacyNamedFontFamilyAsWritten(s) == NamedFontFamily(s)
  {
  }

  /** getFontFamilyOrNull of this file, with the table's keys spelt as the
      platform names them: a string from a resource is a single font; any
      other string is looked up by name. */
  function LegacyGetFontFamilyOrNull(a: AttrSet, x: Attr): (r: Option<FontFamilyWithWeight>)
    ensures r.Some? ==> x in a && a[x].Str?
    ensures x in a && a[x].Str? && a[x].resourceId != 0 ==>
      r == Some(FontFamilyWithWeight(SingleFontFamily(a[x].resourceId), Normal))
    ensures x in a && a[x].Str? && a[x].resourceId == 0 ==>
      (r.Some? <==> a[x].s in FontFamilyNames)
    ensures x in a && a[x].Str? && a[x].resourceId == 0 ==> r == NamedFontFamily(a[x].s)
  {
    if x in a && a[x].Str? then
      if a[x].resourceId != 0 then Some(FontFamilyWithWeight(SingleFontFamily(a[x].resourceId), Normal))
      else NamedFontFamily(a[x].s)
    else None
  }

  /** getFontFamily: getFontFamilyOrNull, or the fallback family at normal weight. */
  function LegacyGetFontFamily(a: AttrSet, x: Attr, fallback: FontFamily): (r: FontFamilyWithWeight)
    ensures LegacyGetFontFamilyOrNull(a, x).Some? ==> r == LegacyGetFontFamilyOrNull(a, x).value
    ensures LegacyGetFontFamilyOrNull(a, x).None? ==> r == FontFamilyWithWeight(fallback, Normal)
  {
    LegacyGetFontFamilyOrNull(a, x).GetOr(FontFamilyWithWeight(fallback, Normal))
  }

  /** The family the text-style parser settles on: the app attribute when it
      is set and resolves, else the platform attribute when it is set. */
  function LegacyFontFamily(a: AttrSet): Option<FontFamilyWithWeight> {
    var app := if AppFontFamily in a then LegacyGetFontFamilyOrNull(a, AppFontFamily) else None;
    if app.None? && AndroidFontFamily in a then LegacyGetFontFamilyOrNull(a, AndroidFontFamily) else app
  }

  /** The `hasValue` guards change nothing: the family is the app attribute's,
      else the platform attribute's. */
  lemma LegacyFontFamilyPrecedence(a: AttrSet)
    ensures LegacyFontFamily(a) ==
      LegacyGetFontFamilyOrNull(a, AppFontFamily).OrElse(LegacyGetFontFamilyOrNull(a, AndroidFontFamily))
  {
  }

  // ---------------------------------------------------------- text styles

  /** This file's textStyleFromTextAppearance: the family through this
      file's own font reader, line height only from android:lineHeight,
      letter spacing unspecified when absent, and the `textStyle` flags read
      as `read` says. */
  function LegacyTextStyleFromTextAppearance(ctx: Context, density: Density, id: int, setTextColors: bool, read: TextStyleRead)
    : (r: Result<TextStyle, Failure>)
    ensures var a := ctx.styleOf(id);
      r.Err? <==>
        || (setTextColors && AndroidTextColor in a && !a[AndroidTextColor].ColorVal?)
        || (AndroidShadowColor in a && !a[AndroidShadowColor].ColorVal?)
    ensures var a := ctx.styleOf(id); r.Ok? ==>
      r.value.color == (if setTextColors && AndroidTextColor in a
                        then Specified(a[AndroidTextColor].argb) else UnspecifiedColor)
    ensures var a := ctx.styleOf(id); r.Ok? ==>
      (AndroidTextSize in a && a[AndroidTextSize].Dim? <==> !r.value.fontSize.UnspecifiedUnit?)
    ensures var a := ctx.styleOf(id); r.Ok? && AndroidTextSize in a && a[AndroidTextSize].Dim? ==>
      Some(r.value.fontSize) == GetTextUnitOrNull(ctx, a, AndroidTextSize, density)
    ensures var a := ctx.styleOf(id); r.Ok? ==>
      r.value.lineHeight == GetTextUnit(ctx, a, AndroidLineHeight, density, UnspecifiedUnit)
    ensures var a := ctx.styleOf(id); r.Ok? ==>
      var family := LegacyFontFamily(a);
      && (family.Some? ==> r.value.fontFamily == Some(family.value.fontFamily))
      && (family.None? ==> r.value.fontFamily == FamilyOf(None, GetInt(a, AndroidTypeface, -1)))
    ensures var a := ctx.styleOf(id); r.Ok? ==>
      r.value.fontStyle == Some(if HasFlag(FlagsRead(read, a), ITALIC) then Italic else NormalStyle)
    ensures var a := ctx.styleOf(id); r.Ok? ==>
      var w := GetInt(a, AndroidTextFontWeight, -1);
      && (0 <= w <= 999 ==> r.value.fontWeight == TextFontWeightBucket(w))
      && (!(0 <= w <= 999) && HasFlag(FlagsRead(read, a), BOLD) ==> r.value.fontWeight == Some(Bold))
      && (!(0 <= w <= 999) && !HasFlag(FlagsRead(read, a), BOLD) ==>
            r.value.fontWeight == (if LegacyFontFamily(a).Some? then Some(LegacyFontFamily(a).value.weight) else None))
    ensures var a := ctx.styleOf(id); r.Ok? ==>
      r.value.shadow ==
        (if AndroidShadowColor in a
         then Some(Shadow(Specified(a[AndroidShadowColor].argb),
                          Offset(GetFloat(a, AndroidShadowDx, Const(0)), GetFloat(a, AndroidShadowDy, Const(0))),
                          GetFloat(a, AndroidShadowRadius, Const(0))))
         else None)
    ensures var a := ctx.styleOf(id); r.Ok? ==>
      r.value.letterSpacing == (if AndroidLetterSpacing in a then Em(GetFloat(a, AndroidLetterSpacing, Const(0)))
                                else UnspecifiedUnit)
    ensures var a := ctx.styleOf(id); r.Ok? ==>
      r.value.fontFeatureSettings == GetString(a, AndroidFontFeatureSettings)
  {
    var a := ctx.styleOf(id);
    var flags := FlagsRead(read, a);
    var textFontWeight := GetInt(a, AndroidTextFontWeight, -1);
    var typeface := GetInt(a, AndroidTypeface, -1);
    var fontFamily := LegacyFontFamily(a);
    var color :- TextColorOf(a, setTextColors);
    var shadowColor :- GetComposeColor(a, AndroidShadowColor, UnspecifiedColor);
    Ok(TextStyle(
      color,
      GetTextUnit(ctx, a, AndroidTextSize, density, UnspecifiedUnit),
      GetTextUnit(ctx, a, AndroidLineHeight, density, UnspecifiedUnit),
      FamilyOf(fontFamily, typeface),
      Some(FontStyleOf(flags)),
      WeightOf(textFontWeight, flags, fontFamily),
      GetString(a, AndroidFontFeatureSettings),
      ShadowOf(a, shadowColor),
      if AndroidLetterSpacing in a then Em(GetFloat(a, AndroidLetterSpacing, Const(0))) else UnspecifiedUnit))
  }

  /** This parser reads `textStyle` with the same -1 default: as written an
      appearance without `textStyle` and `textFontWeight` is italic bold,
      with the corrected read upright at the family's implied weight. */
  lemma LegacyAbsentTextStyleParses(ctx: Context, density: Density, id: int, setTextColors: bool)
    requires AndroidTextStyle !in ctx.styleOf(id) && AndroidTextFontWeight !in ctx.styleOf(id)
    ensures var asWritten := LegacyTextStyleFromTextAppearance(ctx, density, id, setTextColors, AsWritten);
            var corrected := LegacyTextStyleFromTextAppearance(ctx, density, id, setTextColors, Corrected);
      && (asWritten.Ok? <==> corrected.Ok?)
      && (asWritten.Ok? ==> asWritten.value.fontStyle == Some(Italic) && asWritten.value.fontWeight == Some(Bold))
      && (corrected.Ok? ==>
            var family := LegacyFontFamily(ctx.styleOf(id));
            && corrected.value.fontStyle == Some(NormalStyle)
            && corrected.value.fontWeight == (if family.Some? then Some(family.value.weight) else None))
  {
    var a := ctx.styleOf(id);
    AbsentTextStyleIsBoldItalicAsWritten(a, LegacyFontFamily(a));
    AbsentTextStyleIsPlain(a, LegacyFontFamily(a));
  }

  /** The two parsers differ in letter spacing when it is absent: this one
      leaves it unspecified, the newer one writes 0.em. */
  lemma LetterSpacingDefaultsDiffer(ctx: Context, density: Density, id: int, setTextColors: bool, read: TextStyleRead)
    requires AndroidLetterSpacing !in ctx.styleOf(id)
    requires LegacyTextStyleFromTextAppearance(ctx, density, id, setTextColors, read).Ok?
    ensures TextStyleFromTextAppearance(ctx, density, id, setTextColors, read).Ok?
    ensures LegacyTextStyleFromTextAppearance(ctx, density, id, setTextColors, read).value.letterSpacing == UnspecifiedUnit
    ensures TextStyleFromTextAppearance(ctx, density, id, setTextColors, read).value.letterSpacing == Em(Const(0))
  {
  }

  // ---------------------------------------------------------------- shapes

  /** readShapeAppearance: no mirroring; each corner is its own attribute,
      else `cornerSize`, else the fallback size. */
  function ReadShapeAppearance(ctx: Context, id: int, fallbackSize: CornerSize): (r: Result<AbsoluteShape, Failure>)
    ensures var family := GetInt(ctx.styleOf(id), AppCornerFamily, 0);
      && (r.Err? <==> family != 0 && family != 1)
      && (r.Err? ==> r.error == UnknownCornerFamily(family))
      && (r.Ok? ==> r.value.family == (if family == 0 then Rounded else Cut))
    ensures var a := ctx.styleOf(id); r.Ok? ==>
      && r.value.topLeft == CornerOrDefault(ctx, a, CornerSizeTopLeft, fallbackSize)
      && r.value.topRight == CornerOrDefault(ctx, a, CornerSizeTopRight, fallbackSize)
      && r.value.bottomRight == CornerOrDefault(ctx, a, CornerSizeBottomRight, fallbackSize)
      && r.value.bottomLeft == CornerOrDefault(ctx, a, CornerSizeBottomLeft, fallbackSize)
  {
    var a := ctx.styleOf(id);
    var defaultCornerSize := GetCornerSizeOrNull(ctx, a, AppCornerSize).GetOr(fallbackSize);
    var family :- CornerFamilyOf(GetInt(a, AppCornerFamily, 0));
    Ok(AbsoluteShape(
      family,
      GetCornerSizeOrNull(ctx, a, CornerSizeTopLeft).GetOr(defaultCornerSize),
      GetCornerSizeOrNull(ctx, a, CornerSizeTopRight).GetOr(defaultCornerSize),
      GetCornerSizeOrNull(ctx, a, CornerSizeBottomRight).GetOr(defaultCornerSize),
      GetCornerSizeOrNull(ctx, a, CornerSizeBottomLeft).GetOr(defaultCornerSize)))
  }

  const SmallComponentFallback := DpSize(Const(4))
  const MediumComponentFallback := DpSize(Const(4))
  const LargeComponentFallback := DpSize(Const(0))

  // ------------------------------------------------------------ typography

  /** `Typography.merge` as written: each style is merged with itself, so
      the receiver's styles play no part. */
  function MergeTypographyAsWritten(defaults: Typography, styles: Typography): Typography {
    Typography(
      Merge(styles.h1, styles.h1), Merge(styles.h2, styles.h2), Merge(styles.h3, styles.h3),
      Merge(styles.h4, styles.h4), Merge(styles.h5, styles.h5), Merge(styles.h6, styles.h6),
      Merge(styles.subtitle1, styles.subtitle1), Merge(styles.subtitle2, styles.subtitle2),
      Merge(styles.body1, styles.body1), Merge(styles.body2, styles.body2),
      Merge(styles.button, styles.button), Merge(styles.caption, styles.caption),
      Merge(styles.overline, styles.overline))
  }

  /** As written, the result is the parsed styles, whatever the defaults. */
  lemma MergeTypographyAsWrittenIgnoresDefaults(defaults: Typography, styles: Typography)
    ensures MergeTypographyAsWritten(defaults, styles) == styles
  {
    MergeSelf(styles.h1); MergeSelf(styles.h2); MergeSelf(styles.h3); MergeSelf(styles.h4);
    MergeSelf(styles.h5); MergeSelf(styles.h6); MergeSelf(styles.subtitle1); MergeSelf(styles.subtitle2);
    MergeSelf(styles.body1); MergeSelf(styles.body2); MergeSelf(styles.button); MergeSelf(styles.caption);
    MergeSelf(styles.overline);
  }

  /** `Typography.merge` as intended: each parsed style is merged over the
      receiver's style of the same slot. */
  function MergeTypography(defaults: Typography, styles: Typography): (r: Typography)
    ensures forall slot :: r.Get(slot) == Merge(defaults.Get(slot), styles.Get(slot))
  {
    Typography(
      Merge(defaults.h1, styles.h1), Merge(defaults.h2, styles.h2), Merge(defaults.h3, styles.h3),
      Merge(defaults.h4, styles.h4), Merge(defaults.h5, styles.h5), Merge(defaults.h6, styles.h6),
      Merge(defaults.subtitle1, styles.subtitle1), Merge(defaults.subtitle2, styles.subtitle2),
      Merge(defaults.body1, styles.body1), Merge(defaults.body2, styles.body2),
      Merge(defaults.button, styles.button), Merge(defaults.caption, styles.caption),
      Merge(defaults.overline, styles.overline))
  }

  /** A parsed style that leaves a field unspecified keeps the default's
      value there; a specified field wins. */
  lemma MergeTypographyKeepsDefaults(defaults: Typography, styles: Typography, slot: TypeSlot)
    ensures var m := MergeTypography(defaults, styles).Get(slot);
      && (styles.Get(slot).fontSize.UnspecifiedUnit? ==> m.fontSize == defaults.Get(slot).fontSize)
      && (!styles.Get(slot).fontSize.UnspecifiedUnit? ==> m.fontSize == styles.Get(slot).fontSize)
      && (styles.Get(slot).fontFamily.None? ==> m.fontFamily == defaults.Get(slot).fontFamily)
      && (styles.Get(slot).fontFamily.Some? ==> m.fontFamily == styles.Get(slot).fontFamily)
  {
  }

  /** The two differ as soon as a default is set that the parsed style does
      not override: an h1 size of 96sp over an empty parsed h1. */
  lemma MergeTypographyCounterexample()
    ensures var d := TypographyFill(EmptyTextStyle.(fontSize := Sp(Const(96))));
            var p := TypographyFill(EmptyTextStyle);
      && MergeTypographyAsWritten(d, p).h1.fontSize == UnspecifiedUnit
      && MergeTypography(d, p).h1.fontSize == Sp(Const(96))
  {
  }

  /** A typography with the same style in every slot. */
  function TypographyFill(s: TextStyle): (r: Typography)
    ensures forall slot :: r.Get(slot) == s
  {
    Typography(s, s, s, s, s, s, s, s, s, s, s, s, s)
  }

  /** The theme attribute each typography slot is read from. */
  function AppearanceAttr(slot: TypeSlot): Attr {
    match slot
    case H1 => TextAppearanceHeadline1
    case H2 => TextAppearanceHeadline2
    case H3 => TextAppearanceHeadline3
    case H4 => TextAppearanceHeadline4
    case H5 => TextAppearanceHeadline5
    case H6 => TextAppearanceHeadline6
    case Subtitle1 => TextAppearanceSubtitle1
    case Subtitle2 => TextAppearanceSubtitle2
    case Body1 => TextAppearanceBody1
    case Body2 => TextAppearanceBody2
    case Button => TextAppearanceButton
    case Caption => TextAppearanceCaption
    case Overline => TextAppearanceOverline
  }

  /** One slot: the appearance reference, which must be set, then its style. */
  function ReadSlotStyle(ctx: Context, density: Density, setTextColors: bool, slot: TypeSlot): Result<TextStyle, Failure> {
    var id :- GetResourceIdOrThrow(ctx.theme, AppearanceAttr(slot));
    LegacyTextStyleFromTextAppearance(ctx, density, id, setTextColors, Corrected)
  }

  /** The thirteen parsed styles, in slot order. */
  function ReadTypography(ctx: Context, density: Density, setTextColors: bool): (r: Result<Typography, Failure>)
    ensures r.Ok? <==> forall slot :: ReadSlotStyle(ctx, density, setTextColors, slot).Ok?
    ensures r.Ok? ==> forall slot :: ReadSlotStyle(ctx, density, setTextColors, slot) == Ok(r.value.Get(slot))
  {
    var read := slot => ReadSlotStyle(ctx, density, setTextColors, slot);
    assert forall slot :: read(slot) == ReadSlotStyle(ctx, density, setTextColors, slot);
    TypographyOf(read)
  }

  /** A typography from one reader per slot, read in slot order; the first
      failing slot's failure is the result. */
  function TypographyOf(read: TypeSlot -> Result<TextStyle, Failure>): (r: Result<Typography, Failure>)
    ensures r.Ok? <==> forall slot :: read(slot).Ok?
    ensures r.Ok? ==> forall slot :: read(slot) == Ok(r.value.Get(slot))
    ensures r.Err? ==> exists slot :: read(slot) == Err(r.error)
  {
    var h1 :- read(H1);
    var h2 :- read(H2);
    var h3 :- read(H3);
    var h4 :- read(H4);
    var h5 :- read(H5);
    var h6 :- read(H6);
    var subtitle1 :- read(Subtitle1);
    var subtitle2 :- read(Subtitle2);
    var body1 :- read(Body1);
    var body2 :- read(Body2);
    var button :- read(Button);
    var caption :- read(Caption);
    var overline :- read(Overline);
    var t := Typography(h1, h2, h3, h4, h5, h6, subtitle1, subtitle2, body1, body2, button, caption, overline);
    assert forall slot :: read(slot) == Ok(t.Get(slot)) by {
      forall slot ensures read(slot) == Ok(t.Get(slot)) {
        TypeSlotCases(slot);
      }
    }
    Ok(t)
  }

  lemma TypeSlotCases(slot: TypeSlot)
    ensures slot in {H1, H2, H3, H4, H5, H6, Subtitle1, Subtitle2, Body1, Body2, Button, Caption, Overline}
  {
  }

  // ---------------------------------------------------------------- colours

  /** The palette attributes that are read (and must hold colours if set). */
  const PaletteAttrs: set<Attr> := {
    ColorPrimary, ColorPrimaryVariant, ColorOnPrimary, ColorSecondary, ColorSecondaryVariant,
    ColorOnSecondary, AndroidColorBackground, ColorOnBackground, ColorSurface, ColorOnSurface,
    ColorError, ColorOnError }

  /** An attribute getComposeColor reads without throwing. */
  predicate ColorReadable(ta: AttrSet, x: Attr) {
    x !in ta || ta[x].ColorVal?
  }

  function ThemeColor(ta: AttrSet, x: Attr): Result<Color, Failure> {
    GetComposeColor(ta, x, UnspecifiedColor)
  }

  /** The palette: twelve colours read in order, then the light palette or,
      when isLightTheme is false, the dark palette without secondaryVariant. */
  function ReadColorPalette(ta: AttrSet): (r: Result<ColorPalette, Failure>)
    ensures r.Ok? <==> forall x :: x in PaletteAttrs ==> ColorReadable(ta, x)
    ensures r.Ok? ==> r.value.isLight == GetBoolean(ta, IsLightTheme, true)
    ensures r.Ok? ==>
      && ThemeColor(ta, ColorPrimary) == Ok(r.value.primary)
      && ThemeColor(ta, ColorPrimaryVariant) == Ok(r.value.primaryVariant)
      && ThemeColor(ta, ColorOnPrimary) == Ok(r.value.onPrimary)
      && ThemeColor(ta, ColorSecondary) == Ok(r.value.secondary)
      && ThemeColor(ta, ColorOnSecondary) == Ok(r.value.onSecondary)
      && ThemeColor(ta, AndroidColorBackground) == Ok(r.value.background)
      && ThemeColor(ta, ColorOnBackground) == Ok(r.value.onBackground)
      && ThemeColor(ta, ColorSurface) == Ok(r.value.surface)
      && ThemeColor(ta, ColorOnSurface) == Ok(r.value.onSurface)
      && ThemeColor(ta, ColorError) == Ok(r.value.error)
      && ThemeColor(ta, ColorOnError) == Ok(r.value.onError)
    ensures r.Ok? ==>
      r.value.secondaryVariant == (if r.value.isLight then Some(ThemeColor(ta, ColorSecondaryVariant).value) else None)
  {
    var primary :- ThemeColor(ta, ColorPrimary);
    var primaryVariant :- ThemeColor(ta, ColorPrimaryVariant);
    var onPrimary :- ThemeColor(ta, ColorOnPrimary);
    var secondary :- ThemeColor(ta, ColorSecondary);
    var secondaryVariant :- ThemeColor(ta, ColorSecondaryVariant);
    var onSecondary :- ThemeColor(ta, ColorOnSecondary);
    var background :- ThemeColor(ta, AndroidColorBackground);
    var onBackground :- ThemeColor(ta, ColorOnBackground);
    var surface :- ThemeColor(ta, ColorSurface);
    var onSurface :- ThemeColor(ta, ColorOnSurface);
    var error :- ThemeColor(ta, ColorError);
    var onError :- ThemeColor(ta, ColorOnError);
    var isLightTheme := GetBoolean(ta, IsLightTheme, true);
    if isLightTheme then
      Ok(ColorPalette(true, primary, primaryVariant, onPrimary, secondary, Some(secondaryVariant), onSecondary,
                      background, onBackground, surface, onSurface, error, onError))
    else
      Ok(ColorPalette(false, primary, primaryVariant, onPrimary, secondary, None, onSecondary,
                      background, onBackground, surface, onSurface, error, onError))
  }

  // ----------------------------------------------------------------- shapes

  /** The three component shapes: each reference must be set, and each
      appearance is read against its own fallback size. */
  function ReadShapes(ctx: Context): (r: Result<Shapes, Failure>)
    ensures var ta := ctx.theme;
      r.Ok? <==>
        && ShapeAppearanceSmallComponent in ta
        && ReadShapeAppearance(ctx, ResourceIdOf(ta[ShapeAppearanceSmallComponent]), SmallComponentFallback).Ok?
        && ShapeAppearanceMediumComponent in ta
        && ReadShapeAppearance(ctx, ResourceIdOf(ta[ShapeAppearanceMediumComponent]), MediumComponentFallback).Ok?
        && ShapeAppearanceLargeComponent in ta
        && ReadShapeAppearance(ctx, ResourceIdOf(ta[ShapeAppearanceLargeComponent]), LargeComponentFallback).Ok?
    ensures var ta := ctx.theme;
      r.Ok? ==>
      && ShapeAppearanceSmallComponent in ta && ShapeAppearanceMediumComponent in ta && ShapeAppearanceLargeComponent in ta
      && ReadShapeAppearance(ctx, ResourceIdOf(ta[ShapeAppearanceSmallComponent]), SmallComponentFallback) == Ok(r.value.small)
      && ReadShapeAppearance(ctx, ResourceIdOf(ta[ShapeAppearanceMediumComponent]), MediumComponentFallback) == Ok(r.value.medium)
      && ReadShapeAppearance(ctx, ResourceIdOf(ta[ShapeAppearanceLargeComponent]), LargeComponentFallback) == Ok(r.value.large)
    ensures ShapeAppearanceSmallComponent !in ctx.theme ==> r == Err(MissingAttribute(ShapeAppearanceSmallComponent))
  {
    var ta := ctx.theme;
    var smallId :- GetResourceIdOrThrow(ta, ShapeAppearanceSmallComponent);
    var small :- ReadShapeAppearance(ctx, smallId, SmallComponentFallback);
    var mediumId :- GetResourceIdOrThrow(ta, ShapeAppearanceMediumComponent);
    var medium :- ReadShapeAppearance(ctx, mediumId, MediumComponentFallback);
    var largeId :- GetResourceIdOrThrow(ta, ShapeAppearanceLargeComponent);
    var large :- ReadShapeAppearance(ctx, largeId, LargeComponentFallback);
    Ok(Shapes(small, medium, large))
  }

  // --------------------------------------------------------------- assembly

  /** generateMaterialThemeFromMdcTheme. `defaults` is the toolkit's
      `Typography()`, which the parsed styles are merged into. */
  function GenerateMaterialThemeFromMdcTheme(
    ctx: Context, density: Density,
    readColors: bool, readTypography: bool, readShapes: bool, setTextColors: bool,
    defaults: Typography)
    : (r: Result<ThemeParameters, Failure>)
    // the theme must extend Theme.MaterialComponents
    ensures IsMaterialTheme !in ctx.theme ==> r == Err(NotMaterialTheme)
    // a flag that is off leaves its component absent; one that is on fills it
    ensures r.Ok? ==> (r.value.colors.Some? <==> readColors)
    ensures r.Ok? ==> (r.value.typography.Some? <==> readTypography)
    ensures r.Ok? ==> (r.value.shapes.Some? <==> readShapes)
    ensures r.Ok? && readColors ==> ReadColorPalette(ctx.theme) == Ok(r.value.colors.value)
    ensures r.Ok? && readTypography ==>
      ReadTypography(ctx, density, setTextColors).Ok? &&
      r.value.typography.value == MergeTypography(defaults, ReadTypography(ctx, density, setTextColors).value)
    ensures r.Ok? && readShapes ==> ReadShapes(ctx) == Ok(r.value.shapes.value)
    // it fails exactly when the marker is missing or a requested read fails
    ensures r.Err? <==>
      || IsMaterialTheme !in ctx.theme
      || (readColors && ReadColorPalette(ctx.theme).Err?)
      || (readTypography && ReadTypography(ctx, density, setTextColors).Err?)
      || (readShapes && ReadShapes(ctx).Err?)
    // with every flag off, only the marker is checked
    ensures !readColors && !readTypography && !readShapes ==>
      (r.Ok? <==> IsMaterialTheme in ctx.theme)
  {
    var ta := ctx.theme;
    if IsMaterialTheme !in ta then Err(NotMaterialTheme)
    else
      var colors :- if readColors then (var c :- ReadColorPalette(ta); Ok(Some(c))) else Ok(None);
      var typography :- if readTypography
        then (var t :- ReadTypography(ctx, density, setTextColors); Ok(Some(MergeTypography(defaults, t))))
        else Ok(None);
      var shapes :- if readShapes then (var s :- ReadShapes(ctx); Ok(Some(s))) else Ok(None);
      Ok(ThemeParameters(colors, typography, shapes))
  }

  /** With typography requested, a theme that lacks one of the thirteen
      appearance references fails. */
  lemma MissingAppearanceFails(
    ctx: Context, density: Density,
    readColors: bool, readShapes: bool, setTextColors: bool,
    defaults: Typography, slot: TypeSlot)
    requires AppearanceAttr(slot) !in ctx.theme
    ensures GenerateMaterialThemeFromMdcTheme(ctx, density, readColors, true, readShapes, setTextColors, defaults).Err?
  {
    assert ReadSlotStyle(ctx, density, setTextColors, slot).Err?;
  }

  /** MaterialThemeFromMdcTheme: each component generated, else the current one. */
  function MaterialThemeFromMdcTheme(params: ThemeParameters, current: MaterialValues): (r: MaterialValues)
    ensures r.colors == (if params.colors.Some? then params.colors.value else current.colors)
    ensures r.typography == (if params.typography.Some? then params.typography.value else current.typography)
    ensures r.shapes == (if params.shapes.Some? then params.shapes.value else current.shapes)
  {
    MaterialValues(
      params.colors.GetOr(current.colors),
      params.typography.GetOr(current.typography),
      params.shapes.GetOr(current.shapes))
  }

  /** A read flag that is off preserves the current theme's component. */
  lemma ReadFlagOffPreservesCurrent(
    ctx: Context, density: Density,
    readColors: bool, readTypography: bool, readShapes: bool, setTextColors: bool,
    defaults: Typography, current: MaterialValues)
    requires GenerateMaterialThemeFromMdcTheme(ctx, density, readColors, readTypography, readShapes, setTextColors, defaults).Ok?
    ensures var p := GenerateMaterialThemeFromMdcTheme(ctx, density, readColors, readTypography, readShapes, setTextColors, defaults).value;
            var m := MaterialThemeFromMdcTheme(p, current);
      && (!readColors ==> m.colors == current.colors)
      && (!readTypography ==> m.typography == current.typography)
      && (!readShapes ==> m.shapes == current.shapes)
  {
  }
}
