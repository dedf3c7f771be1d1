/** The platform side: what a styled-attribute array holds and how the
    adapter reads it. An attribute set is a finite map from attribute name to
    a typed value; a name that is not in the map is an attribute the style
    does not define (`hasValue` is false). Numeric conversions the platform
    performs (complexToFloat, getDimension, getFraction, density scaling) are
    kept as uninterpreted terms of `Scalar`. */
module Resources {
  import opened Wrappers

  /** The attributes the adapter reads, from every styleable it uses
      (text appearance, shape appearance and the three theme styleables).
      `Android...` names are the platform's `android:` attributes, `App...`
      the library's own attributes of the same name. */
  datatype Attr =
    // text appearance
    | AndroidTextStyle | AndroidTextFontWeight | AndroidTypeface | AppFontFamily | AndroidFontFamily
    | AndroidTextColor | AndroidTextSize | AppLineHeight | AndroidLineHeight | AndroidFontFeatureSettings
    | AndroidShadowColor | AndroidShadowDx | AndroidShadowDy | AndroidShadowRadius | AndroidLetterSpacing
    // shape appearance
    | AppCornerSize | CornerSizeTopLeft | CornerSizeTopRight
    | CornerSizeBottomLeft | CornerSizeBottomRight | AppCornerFamily
    // theme markers
    | IsMaterialTheme | IsMaterial3Theme | IsLightTheme
    // theme colours
    | ColorPrimary | ColorPrimaryVariant | ColorOnPrimary | ColorPrimaryInverse
    | ColorPrimaryContainer | ColorOnPrimaryContainer
    | ColorSecondary | ColorSecondaryVariant | ColorOnSecondary
    | ColorSecondaryContainer | ColorOnSecondaryContainer
    | ColorTertiary | ColorOnTertiary | ColorTertiaryContainer | ColorOnTertiaryContainer
    | AndroidColorBackground | ColorOnBackground
    | ColorSurface | ColorOnSurface | ColorSurfaceVariant | ColorOnSurfaceVariant
    | ElevationOverlayColor | ColorSurfaceInverse | ColorOnSurfaceInverse | ColorOutline
    | ColorError | ColorOnError | ColorErrorContainer | ColorOnErrorContainer
    // Material Components text appearances
    | TextAppearanceHeadline1 | TextAppearanceHeadline2 | TextAppearanceHeadline3
    | TextAppearanceHeadline4 | TextAppearanceHeadline5 | TextAppearanceHeadline6
    | TextAppearanceSubtitle1 | TextAppearanceSubtitle2
    | TextAppearanceBody1 | TextAppearanceBody2
    | TextAppearanceButton | TextAppearanceCaption | TextAppearanceOverline
    // Material 3 text appearances
    | TextAppearanceDisplayLarge | TextAppearanceDisplayMedium | TextAppearanceDisplaySmall
    | TextAppearanceHeadlineLarge | TextAppearanceHeadlineMedium | TextAppearanceHeadlineSmall
    | TextAppearanceTitleLarge | TextAppearanceTitleMedium | TextAppearanceTitleSmall
    | TextAppearanceBodyLarge | TextAppearanceBodyMedium | TextAppearanceBodySmall
    | TextAppearanceLabelLarge | TextAppearanceLabelMedium | TextAppearanceLabelSmall
    // shape appearances
    | ShapeAppearanceSmallComponent | ShapeAppearanceMediumComponent
    | ShapeAppearanceLargeComponent
    | ShapeAppearanceCornerExtraSmall | ShapeAppearanceCornerSmall
    | ShapeAppearanceCornerMedium | ShapeAppearanceCornerLarge
    | ShapeAppearanceCornerExtraLarge

  /** A resolved attribute value, by its TypedValue type. */
  datatype AttrValue =
    | Str(s: string, resourceId: int)   // TYPE_STRING; resourceId is 0 unless it came from a resource file
    | Dim(data: int)                    // TYPE_DIMENSION; the complex unit sits in the low bits of data
    | Fraction(data: int)               // TYPE_FRACTION
    | ColorVal(argb: int)               // one of the TYPE_INT_COLOR_* types
    | IntVal(i: int)                    // integer, enum or flag
    | BoolVal(b: bool)
    | FloatVal(bits: int)               // TYPE_FLOAT, by its bits
    | Ref(id: int)                      // a reference to another resource (a style)

  type AttrSet = map<Attr, AttrValue>

  /** Display metrics, never inspected by the adapter itself. */
  datatype Density = Density(density: int, fontScale: int)

  /** A number the platform computes and the adapter passes on unread. */
  datatype Scalar =
    | Const(n: int)                          // a literal of the source: 0f, 4.dp, ...
    | FloatBits(bits: int)                   // a float attribute, as stored
    | ComplexToFloat(data: int)              // TypedValue.complexToFloat(data)
    | DimensionToPx(data: int)               // TypedArray.getDimension(index, 0f)
    | DimensionPixelSize(data: int)          // TypedArray.getDimensionPixelSize(index, 0)
    | FractionOf(data: int)                  // TypedValue.getFraction(1f, 1f)
    | PxToSp(px: Scalar, density: Density)   // Density.toSp

  /** One font of an XML font family, as FontResourcesParserCompat reports it. */
  datatype FontFileEntry = FontFileEntry(resourceId: int, weight: int, isItalic: bool)

  /** What FontResourcesParserCompat.parse returns for a font resource:
      a family of font files, or something else (a provider entry). */
  datatype FontResourceEntry =
    | FontFamilyFiles(entries: seq<FontFileEntry>)
    | OtherFontEntry

  /** The context the adapter reads from. `styleOf(id)` is what
      obtainStyledAttributes(id, ...) yields for the style resource `id`;
      `parseFontXml(id)` is the font XML parser's result for `id`. */
  datatype Context = Context(
    theme: AttrSet,
    styleOf: int -> AttrSet,
    sdkInt: int,
    parseFontXml: int -> FontResourceEntry)

  /** The exceptions the adapter lets escape. */
  datatype Failure =
    | NotMaterialTheme            // require(isMaterialTheme) in the Material Components assembler
    | NotMaterial3Theme           // require(isMaterial3Theme) in both Material 3 assemblers
    | MissingAttribute(attr: Attr)  // getResourceIdOrThrow / getColorOrThrow on an undefined attribute
    | NotAColor(attr: Attr)       // getColorOrThrow on a value that is not a colour
    | UnknownCornerFamily(family: int)

  /** TypedArray.getInt(index, default); a value of another type reads as the default. */
  function GetInt(a: AttrSet, x: Attr, default: int): (r: int)
    ensures x in a && a[x].IntVal? ==> r == a[x].i
    ensures !(x in a && a[x].IntVal?) ==> r == default
  {
    if x in a && a[x].IntVal? then a[x].i else default
  }

  /** TypedArray.getBoolean(index, default). */
  function GetBoolean(a: AttrSet, x: Attr, default: bool): (r: bool)
    ensures x in a && a[x].BoolVal? ==> r == a[x].b
    ensures !(x in a && a[x].BoolVal?) ==> r == default
  {
    if x in a && a[x].BoolVal? then a[x].b else default
  }

  /** TypedArray.getFloat(index, default). */
  function GetFloat(a: AttrSet, x: Attr, default: Scalar): (r: Scalar)
    ensures x in a && a[x].FloatVal? ==> r == FloatBits(a[x].bits)
    ensures !(x in a && a[x].FloatVal?) ==> r == default
  {
    if x in a && a[x].FloatVal? then FloatBits(a[x].bits) else default
  }

  /** TypedArray.getString(index): null when the attribute is not a string. */
  function GetString(a: AttrSet, x: Attr): (r: Option<string>)
    ensures r.Some? <==> x in a && a[x].Str?
    ensures r.Some? ==> r.value == a[x].s
  {
    if x in a && a[x].Str? then Some(a[x].s) else None
  }

  /** The resource id a value carries (getResourceId with default 0). */
  function ResourceIdOf(v: AttrValue): int {
    match v
    case Ref(id) => id
    case Str(_, id) => id
    case _ => 0
  }

  /** getResourceIdOrThrow: fails exactly when the attribute is undefined. */
  function GetResourceIdOrThrow(a: AttrSet, x: Attr): (r: Result<int, Failure>)
    ensures r.Err? <==> x !in a
    ensures r.Err? ==> r.error == MissingAttribute(x)
    ensures r.Ok? ==> r.value == ResourceIdOf(a[x])
  {
    if x in a then Ok(ResourceIdOf(a[x])) else Err(MissingAttribute(x))
  }
}
