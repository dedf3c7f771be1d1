/** The Material 3 assembler of the Material Components library
    (lib/.../Mdc3Theme.kt): reads a colour scheme and a typography from a
    theme extending Theme.Material3. The text-appearance parser it calls
    takes a default font family; that parser is not part of this model and
    is a parameter here. */
module Mdc3ThemeLib {
  import opened Wrappers
  import opened Resources
  import opened Compose
  import opened TypedArrayUtils

  /** The per-appearance parser: the appearance's style resource, whether to
      read text colours, and the default font family. */
  type TextStyleParser = (int, bool, Option<FontFamily>) -> Result<TextStyle, Failure>

  /** The two components; each is absent when its read flag is off. */
  datatype Theme3Parameters = Theme3Parameters(colorScheme: Option<ColorScheme>, typography: Option<Typography3>)

  // ---------------------------------------------------------------- colours

  /** The theme attribute each colour-scheme slot is read from. */
  function SchemeAttr(slot: ColorSlot): Attr {
    match slot
    case Primary => ColorPrimary
    case OnPrimary => ColorOnPrimary
    case InversePrimary => ColorPrimaryInverse
    case PrimaryContainer => ColorPrimaryContainer
    case OnPrimaryContainer => ColorOnPrimaryContainer
    case Secondary => ColorSecondary
    case OnSecondary => ColorOnSecondary
    case SecondaryContainer => ColorSecondaryContainer
    case OnSecondaryContainer => ColorOnSecondaryContainer
    case Tertiary => ColorTertiary
    case OnTertiary => ColorOnTertiary
    case TertiaryContainer => ColorTertiaryContainer
    case OnTertiaryContainer => ColorOnTertiaryContainer
    case Background => AndroidColorBackground
    case OnBackground => ColorOnBackground
    case Surface => ColorSurface
    case OnSurface => ColorOnSurface
    case SurfaceVariant => ColorSurfaceVariant
    case OnSurfaceVariant => ColorOnSurfaceVariant
    case InverseSurface => ColorSurfaceInverse
    case InverseOnSurface => ColorOnSurfaceInverse
    case Outline => ColorOutline
    case Error => ColorError
    case OnError => ColorOnError
    case ErrorContainer => ColorErrorContainer
    case OnErrorContainer => ColorOnErrorContainer
  }

  /** Distinct slots read distinct attributes. */
  lemma SchemeAttrInjective(s1: ColorSlot, s2: ColorSlot)
    ensures SchemeAttr(s1) == SchemeAttr(s2) ==> s1 == s2
  {
  }

  /** One slot's colour: getComposeColor with no fallback. */
  function SchemeColor(ta: AttrSet, slot: ColorSlot): Result<Color, Failure> {
    GetComposeColor(ta, SchemeAttr(slot), UnspecifiedColor)
  }

  lemma ColorSlotCases(slot: ColorSlot)
    ensures slot in {Primary, OnPrimary, InversePrimary, PrimaryContainer, OnPrimaryContainer,
                     Secondary, OnSecondary, SecondaryContainer, OnSecondaryContainer,
                     Tertiary, OnTertiary, TertiaryContainer, OnTertiaryContainer,
                     Background, OnBackground, Surface, OnSurface, SurfaceVariant, OnSurfaceVariant,
                     InverseSurface, InverseOnSurface, Outline,
                     Error, OnError, ErrorContainer, OnErrorContainer}
  {
  }

  /** The light scheme when isLightTheme (default true) holds, else the dark one. */
  function SchemeVariantOf(ta: AttrSet): (v: SchemeVariant)
    ensures IsLightTheme !in ta ==> v == LightScheme
    ensures v == DarkScheme <==> IsLightTheme in ta && ta[IsLightTheme] == BoolVal(false)
  {
    if GetBoolean(ta, IsLightTheme, true) then LightScheme else DarkScheme
  }

  /** The colour scheme: 26 colours read in order; no surfaceTint is passed. */
  function ReadColorScheme(ta: AttrSet): (r: Result<ColorScheme, Failure>)
    ensures r.Ok? <==> forall slot :: SchemeColor(ta, slot).Ok?
    ensures r.Ok? ==> forall slot :: SchemeColor(ta, slot) == Ok(r.value.Get(slot))
    ensures r.Ok? ==> r.value.variant == SchemeVariantOf(ta) && r.value.surfaceTint == None
  {
    var primary :- SchemeColor(ta, Primary);
    var onPrimary :- SchemeColor(ta, OnPrimary);
    var primaryInverse :- SchemeColor(ta, InversePrimary);
    var primaryContainer :- SchemeColor(ta, PrimaryContainer);
    var onPrimaryContainer :- SchemeColor(ta, OnPrimaryContainer);
    var secondary :- SchemeColor(ta, Secondary);
    var onSecondary :- SchemeColor(ta, OnSecondary);
    var secondaryContainer :- SchemeColor(ta, SecondaryContainer);
    var onSecondaryContainer :- SchemeColor(ta, OnSecondaryContainer);
    var tertiary :- SchemeColor(ta, Tertiary);
    var onTertiary :- SchemeColor(ta, OnTertiary);
    var tertiaryContainer :- SchemeColor(ta, TertiaryContainer);
    var onTertiaryContainer :- SchemeColor(ta, OnTertiaryContainer);
    var background :- SchemeColor(ta, Background);
    var onBackground :- SchemeColor(ta, OnBackground);
    var surface :- SchemeColor(ta, Surface);
    var onSurface :- SchemeColor(ta, OnSurface);
    var surfaceVariant :- SchemeColor(ta, SurfaceVariant);
    var onSurfaceVariant :- SchemeColor(ta, OnSurfaceVariant);
    var surfaceInverse :- SchemeColor(ta, InverseSurface);
    var onSurfaceInverse :- SchemeColor(ta, InverseOnSurface);
    var outline :- SchemeColor(ta, Outline);
    var error :- SchemeColor(ta, Error);
    var onError :- SchemeColor(ta, OnError);
    var errorContainer :- SchemeColor(ta, ErrorContainer);
    var onErrorContainer :- SchemeColor(ta, OnErrorContainer);
    var scheme := ColorScheme(
      SchemeVariantOf(ta),
      primary, onPrimary, primaryInverse, primaryContainer, onPrimaryContainer,
      secondary, onSecondary, secondaryContainer, onSecondaryContainer,
      tertiary, onTertiary, tertiaryContainer, onTertiaryContainer,
      background, onBackground, surface, onSurface, surfaceVariant, onSurfaceVariant,
      None,
      surfaceInverse, onSurfaceInverse, outline,
      error, onError, errorContainer, onErrorContainer);
    assert forall slot :: SchemeColor(ta, slot) == Ok(scheme.Get(slot)) by {
      forall slot ensures SchemeColor(ta, slot) == Ok(scheme.Get(slot)) {
        ColorSlotCases(slot);
      }
    }
    Ok(scheme)
  }

  // ------------------------------------------------------------- typography

  /** The theme attribute each typography slot is read from. */
  function Appearance3Attr(slot: Type3Slot): Attr {
    match slot
    case DisplayLarge => TextAppearanceDisplayLarge
    case DisplayMedium => TextAppearanceDisplayMedium
    case DisplaySmall => TextAppearanceDisplaySmall
    case HeadlineLarge => TextAppearanceHeadlineLarge
    case HeadlineMedium => TextAppearanceHeadlineMedium
    case HeadlineSmall => TextAppearanceHeadlineSmall
    case TitleLarge => TextAppearanceTitleLarge
    case TitleMedium => TextAppearanceTitleMedium
    case TitleSmall => TextAppearanceTitleSmall
    case BodyLarge => TextAppearanceBodyLarge
    case BodyMedium => TextAppearanceBodyMedium
    case BodySmall => TextAppearanceBodySmall
    case LabelLarge => TextAppearanceLabelLarge
    case LabelMedium => TextAppearanceLabelMedium
    case LabelSmall => TextAppearanceLabelSmall
  }

  /** The default font family: none unless requested; then the theme's app
      fontFamily, else its android:fontFamily, without the implied weight. */
  function DefaultFontFamily(ctx: Context, setDefaultFontFamily: bool): (r: Option<FontFamily>)
    ensures !setDefaultFontFamily ==> r == None
    ensures setDefaultFontFamily ==>
      var app := GetFontFamilyOrNull(ctx, ctx.theme, AppFontFamily);
      var android := GetFontFamilyOrNull(ctx, ctx.theme, AndroidFontFamily);
      && (app.Some? ==> r == Some(app.value.fontFamily))
      && (app.None? && android.Some? ==> r == Some(android.value.fontFamily))
      && (app.None? && android.None? ==> r == None)
  {
    if setDefaultFontFamily then
      var withWeight := GetFontFamilyOrNull(ctx, ctx.theme, AppFontFamily)
                          .OrElse(GetFontFamilyOrNull(ctx, ctx.theme, AndroidFontFamily));
      if withWeight.Some? then Some(withWeight.value.fontFamily) else None
    else None
  }

  /** One slot: the appearance reference, which must be set, then its style. */
  function ReadSlotStyle3(ta: AttrSet, parse: TextStyleParser, setTextColors: bool,
                          defaultFontFamily: Option<FontFamily>, slot: Type3Slot): Result<TextStyle, Failure> {
    var id :- GetResourceIdOrThrow(ta, Appearance3Attr(slot));
    parse(id, setTextColors, defaultFontFamily)
  }

  lemma Type3SlotCases(slot: Type3Slot)
    ensures slot in {DisplayLarge, DisplayMedium, DisplaySmall, HeadlineLarge, HeadlineMedium, HeadlineSmall,
                     TitleLarge, TitleMedium, TitleSmall, BodyLarge, BodyMedium, BodySmall,
                     LabelLarge, LabelMedium, LabelSmall}
  {
  }

  /** The fifteen styles, in slot order, each from its own appearance with
      the same text-colour flag and the same default family. */
  function ReadTypography3(ta: AttrSet, parse: TextStyleParser, setTextColors: bool,
                           defaultFontFamily: Option<FontFamily>): (r: Result<Typography3, Failure>)
    ensures r.Ok? <==> forall slot :: ReadSlotStyle3(ta, parse, setTextColors, defaultFontFamily, slot).Ok?
    ensures r.Ok? ==> forall slot ::
      && Appearance3Attr(slot) in ta
      && parse(ResourceIdOf(ta[Appearance3Attr(slot)]), setTextColors, defaultFontFamily) == Ok(r.value.Get(slot))
    ensures forall slot :: Appearance3Attr(slot) !in ta ==> r.Err?
  {
    var read := (slot: Type3Slot) => ReadSlotStyle3(ta, parse, setTextColors, defaultFontFamily, slot);
    var displayLarge :- read(DisplayLarge);
    var displayMedium :- read(DisplayMedium);
    var displaySmall :- read(DisplaySmall);
    var headlineLarge :- read(HeadlineLarge);
    var headlineMedium :- read(HeadlineMedium);
    var headlineSmall :- read(HeadlineSmall);
    var titleLarge :- read(TitleLarge);
    var titleMedium :- read(TitleMedium);
    var titleSmall :- read(TitleSmall);
    var bodyLarge :- read(BodyLarge);
    var bodyMedium :- read(BodyMedium);
    var bodySmall :- read(BodySmall);
    var labelLarge :- read(LabelLarge);
    var labelMedium :- read(LabelMedium);
    var labelSmall :- read(LabelSmall);
    var t := Typography3(
      displayLarge, displayMedium, displaySmall, headlineLarge, headlineMedium, headlineSmall,
      titleLarge, titleMedium, titleSmall, bodyLarge, bodyMedium, bodySmall,
      labelLarge, labelMedium, labelSmall);
    assert forall slot :: read(slot) == Ok(t.Get(slot)) by {
      forall slot ensures read(slot) == Ok(t.Get(slot)) {
        Type3SlotCases(slot);
      }
    }
    Ok(t)
  }

  // --------------------------------------------------------------- assembly

  /** createMdc3Theme of this library. */
  function CreateMdc3Theme(ctx: Context, parse: TextStyleParser,
                           readColorScheme: bool, readTypography: bool,
                           setTextColors: bool, setDefaultFontFamily: bool)
    : (r: Result<Theme3Parameters, Failure>)
    // the theme must extend Theme.Material3
    ensures IsMaterial3Theme !in ctx.theme ==> r == Err(NotMaterial3Theme)
    // a flag that is off leaves its component absent; one that is on fills it
    ensures r.Ok? ==> (r.value.colorScheme.Some? <==> readColorScheme)
    ensures r.Ok? ==> (r.value.typography.Some? <==> readTypography)
    ensures r.Ok? && readColorScheme ==> ReadColorScheme(ctx.theme) == Ok(r.value.colorScheme.value)
    ensures r.Ok? && readTypography ==>
      ReadTypography3(ctx.theme, parse, setTextColors, DefaultFontFamily(ctx, setDefaultFontFamily))
        == Ok(r.value.typography.value)
    // errors come only from the marker, a colour read or a typography read
    ensures r.Err? <==>
      || IsMaterial3Theme !in ctx.theme
      || (readColorScheme && ReadColorScheme(ctx.theme).Err?)
      || (readTypography &&
          ReadTypography3(ctx.theme, parse, setTextColors, DefaultFontFamily(ctx, setDefaultFontFamily)).Err?)
  {
    var ta := ctx.theme;
    if IsMaterial3Theme !in ta then Err(NotMaterial3Theme)
    else
      var colorScheme :- if readColorScheme then (var c :- ReadColorScheme(ta); Ok(Some(c))) else Ok(None);
      var typography :- if readTypography
        then (var t :- ReadTypography3(ta, parse, setTextColors, DefaultFontFamily(ctx, setDefaultFontFamily)); Ok(Some(t)))
        else Ok(None);
      Ok(Theme3Parameters(colorScheme, typography))
  }

  /** The theme and content colour the composable installs. */
  datatype Mdc3Content = Mdc3Content(theme: Material3Values, contentColor: Color)

  /** Mdc3Theme: the generated scheme and typography, else the current ones;
      shapes stay as they are; content colour is the resulting onBackground. */
  function Mdc3Theme(params: Theme3Parameters, current: Material3Values): (r: Mdc3Content)
    ensures r.theme.colorScheme == (if params.colorScheme.Some? then params.colorScheme.value else current.colorScheme)
    ensures r.theme.typography == (if params.typography.Some? then params.typography.value else current.typography)
    ensures r.theme.shapes == current.shapes
    ensures r.contentColor == r.theme.colorScheme.onBackground
  {
    var theme := Material3Values(
      params.colorScheme.GetOr(current.colorScheme),
      params.typography.GetOr(current.typography),
      current.shapes);
    Mdc3Content(theme, theme.colorScheme.onBackground)
  }

  /** A read flag that is off preserves the current theme's component. */
  lemma ReadFlagOffPreservesCurrent(ctx: Context, parse: TextStyleParser,
                                    readColorScheme: bool, readTypography: bool,
                                    setTextColors: bool, setDefaultFontFamily: bool,
                                    current: Material3Values)
    requires CreateMdc3Theme(ctx, parse, readColorScheme, readTypography, setTextColors, setDefaultFontFamily).Ok?
    ensures var p := CreateMdc3Theme(ctx, parse, readColorScheme, readTypography, setTextColors, setDefaultFontFamily).value;
            var m := Mdc3Theme(p, current).theme;
      && (!readColorScheme ==> m.colorScheme == current.colorScheme)
      && (!readTypography ==> m.typography == current.typography)
  {
  }
}
