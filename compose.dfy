/** The UI toolkit's theme values, as plain records. Only the fields the
    adapter sets are modelled. Where a toolkit constructor fills a slot the
    adapter does not pass, the slot is an `Option` and `None` stands for the
    toolkit's own default, which is left uninterpreted. The older toolkit
    names `Color.Unset` and `TextUnit.Inherit` are the same values as the
    newer `Color.Unspecified` and `TextUnit.Unspecified`. */
module Compose {
  import opened Wrappers
  import opened Resources

  datatype Color = UnspecifiedColor | Specified(argb: int)

  datatype TextUnit = UnspecifiedUnit | Sp(sp: Scalar) | Em(em: Scalar)

  /** A font weight by its numeric value (W100 is 100, ..., W900 is 900). */
  datatype FontWeight = FontWeight(weight: int)

  const W100 := FontWeight(100)
  const W200 := FontWeight(200)
  const W300 := FontWeight(300)
  const W400 := FontWeight(400)
  const W500 := FontWeight(500)
  const W600 := FontWeight(600)
  const W700 := FontWeight(700)
  const W800 := FontWeight(800)
  const W900 := FontWeight(900)
  const Thin := W100
  const Light := W300
  const Normal := W400
  const Medium := W500
  const Bold := W700
  const Black := W900

  datatype FontStyle = NormalStyle | Italic

  datatype Font = Font(resId: int, weight: FontWeight, style: FontStyle)

  /** The generic families, and a family made of font resources. */
  datatype FontFamily = SansSerif | Serif | Monospace | Cursive | Fonts(fonts: seq<Font>)

  /** A family together with the weight its name implies ("sans-serif-light"). */
  datatype FontFamilyWithWeight = FontFamilyWithWeight(fontFamily: FontFamily, weight: FontWeight)

  datatype Offset = Offset(x: Scalar, y: Scalar)

  datatype Shadow = Shadow(color: Color, offset: Offset, blurRadius: Scalar)

  datatype TextStyle = TextStyle(
    color: Color,
    fontSize: TextUnit,
    lineHeight: TextUnit,
    fontFamily: Option<FontFamily>,
    fontStyle: Option<FontStyle>,
    fontWeight: Option<FontWeight>,
    fontFeatureSettings: Option<string>,
    shadow: Option<Shadow>,
    letterSpacing: TextUnit)

  /** `TextStyle()`: every field unspecified. */
  const EmptyTextStyle := TextStyle(UnspecifiedColor, UnspecifiedUnit, UnspecifiedUnit,
                                    None, None, None, None, None, UnspecifiedUnit)

  function OrColor(c: Color, base: Color): Color {
    if c.Specified? then c else base
  }

  function OrUnit(u: TextUnit, base: TextUnit): TextUnit {
    if u.UnspecifiedUnit? then base else u
  }

  /** `base.merge(other)`: each field specified in `other` wins, every other
      field keeps its value from `base`. */
  function Merge(base: TextStyle, other: TextStyle): TextStyle {
    TextStyle(
      OrColor(other.color, base.color),
      OrUnit(other.fontSize, base.fontSize),
      OrUnit(other.lineHeight, base.lineHeight),
      other.fontFamily.OrElse(base.fontFamily),
      other.fontStyle.OrElse(base.fontStyle),
      other.fontWeight.OrElse(base.fontWeight),
      other.fontFeatureSettings.OrElse(base.fontFeatureSettings),
      other.shadow.OrElse(base.shadow),
      OrUnit(other.letterSpacing, base.letterSpacing))
  }

  /** A style merged with itself is unchanged. */
  lemma MergeSelf(s: TextStyle)
    ensures Merge(s, s) == s
  {
  }

  /** Merging over the empty style yields the merged style. */
  lemma MergeOverEmpty(s: TextStyle)
    ensures Merge(EmptyTextStyle, s) == s
  {
  }

  datatype CornerSize =
    | DpSize(dp: Scalar)         // CornerSize(Dp)
    | FloatSize(value: Scalar)   // CornerSize(Float)
    | IntSize(value: Scalar)     // CornerSize(Int)

  datatype CornerFamily = Rounded | Cut

  datatype LayoutDirection = Ltr | Rtl

  /** A RoundedCornerShape or CutCornerShape with relative corners. */
  datatype CornerBasedShape = CornerBasedShape(
    family: CornerFamily,
    topStart: CornerSize, topEnd: CornerSize, bottomEnd: CornerSize, bottomStart: CornerSize)

  /** The older toolkit's corner shapes, with absolute corners. */
  datatype AbsoluteShape = AbsoluteShape(
    family: CornerFamily,
    topLeft: CornerSize, topRight: CornerSize, bottomRight: CornerSize, bottomLeft: CornerSize)

  /** The Material Components colour palette. `secondaryVariant` is `None`
      where the palette constructor was not given one. */
  datatype ColorPalette = ColorPalette(
    isLight: bool,
    primary: Color, primaryVariant: Color, onPrimary: Color,
    secondary: Color, secondaryVariant: Option<Color>, onSecondary: Color,
    background: Color, onBackground: Color,
    surface: Color, onSurface: Color,
    error: Color, onError: Color)

  /** The Material Components typography slots. */
  datatype TypeSlot =
    | H1 | H2 | H3 | H4 | H5 | H6 | Subtitle1 | Subtitle2
    | Body1 | Body2 | Button | Caption | Overline

  datatype Typography = Typography(
    h1: TextStyle, h2: TextStyle, h3: TextStyle, h4: TextStyle, h5: TextStyle, h6: TextStyle,
    subtitle1: TextStyle, subtitle2: TextStyle, body1: TextStyle, body2: TextStyle,
    button: TextStyle, caption: TextStyle, overline: TextStyle)
  {
    function Get(slot: TypeSlot): TextStyle {
      match slot
      case H1 => h1
      case H2 => h2
      case H3 => h3
      case H4 => h4
      case H5 => h5
      case H6 => h6
      case Subtitle1 => subtitle1
      case Subtitle2 => subtitle2
      case Body1 => body1
      case Body2 => body2
      case Button => button
      case Caption => caption
      case Overline => overline
    }
  }

  datatype Shapes = Shapes(small: AbsoluteShape, medium: AbsoluteShape, large: AbsoluteShape)

  /** Which Material 3 colour-scheme constructor built a scheme; the two
      differ only in the defaults of slots the adapter does not pass. */
  datatype SchemeVariant = LightScheme | DarkScheme

  /** The Material 3 colour slots the adapter passes, except surfaceTint. */
  datatype ColorSlot =
    | Primary | OnPrimary | InversePrimary | PrimaryContainer | OnPrimaryContainer
    | Secondary | OnSecondary | SecondaryContainer | OnSecondaryContainer
    | Tertiary | OnTertiary | TertiaryContainer | OnTertiaryContainer
    | Background | OnBackground | Surface | OnSurface | SurfaceVariant | OnSurfaceVariant
    | InverseSurface | InverseOnSurface | Outline
    | Error | OnError | ErrorContainer | OnErrorContainer

  /** A Material 3 colour scheme. `surfaceTint` is `None` where the scheme
      constructor was not given one. */
  datatype ColorScheme = ColorScheme(
    variant: SchemeVariant,
    primary: Color, onPrimary: Color, inversePrimary: Color,
    primaryContainer: Color, onPrimaryContainer: Color,
    secondary: Color, onSecondary: Color,
    secondaryContainer: Color, onSecondaryContainer: Color,
    tertiary: Color, onTertiary: Color,
    tertiaryContainer: Color, onTertiaryContainer: Color,
    background: Color, onBackground: Color,
    surface: Color, onSurface: Color,
    surfaceVariant: Color, onSurfaceVariant: Color,
    surfaceTint: Option<Color>,
    inverseSurface: Color, inverseOnSurface: Color,
    outline: Color,
    error: Color, onError: Color,
    errorContainer: Color, onErrorContainer: Color)
  {
    function Get(slot: ColorSlot): Color {
      match slot
      case Primary => primary
      case OnPrimary => onPrimary
      case InversePrimary => inversePrimary
      case PrimaryContainer => primaryContainer
      case OnPrimaryContainer => onPrimaryContainer
      case Secondary => secondary
      case OnSecondary => onSecondary
      case SecondaryContainer => secondaryContainer
      case OnSecondaryContainer => onSecondaryContainer
      case Tertiary => tertiary
      case OnTertiary => onTertiary
      case TertiaryContainer => tertiaryContainer
      case OnTertiaryContainer => onTertiaryContainer
      case Background => background
      case OnBackground => onBackground
      case Surface => surface
      case OnSurface => onSurface
      case SurfaceVariant => surfaceVariant
      case OnSurfaceVariant => onSurfaceVariant
      case InverseSurface => inverseSurface
      case InverseOnSurface => inverseOnSurface
      case Outline => outline
      case Error => error
      case OnError => onError
      case ErrorContainer => errorContainer
      case OnErrorContainer => onErrorContainer
    }
  }

  /** The Material 3 typography slots. */
  datatype Type3Slot =
    | DisplayLarge | DisplayMedium | DisplaySmall
    | HeadlineLarge | HeadlineMedium | HeadlineSmall
    | TitleLarge | TitleMedium | TitleSmall
    | BodyLarge | BodyMedium | BodySmall
    | LabelLarge | LabelMedium | LabelSmall

  datatype Typography3 = Typography3(
    displayLarge: TextStyle, displayMedium: TextStyle, displaySmall: TextStyle,
    headlineLarge: TextStyle, headlineMedium: TextStyle, headlineSmall: TextStyle,
    titleLarge: TextStyle, titleMedium: TextStyle, titleSmall: TextStyle,
    bodyLarge: TextStyle, bodyMedium: TextStyle, bodySmall: TextStyle,
    labelLarge: TextStyle, labelMedium: TextStyle, labelSmall: TextStyle)
  {
    function Get(slot: Type3Slot): TextStyle {
      match slot
      case DisplayLarge => displayLarge
      case DisplayMedium => displayMedium
      case DisplaySmall => displaySmall
      case HeadlineLarge => headlineLarge
      case HeadlineMedium => headlineMedium
      case HeadlineSmall => headlineSmall
      case TitleLarge => titleLarge
      case TitleMedium => titleMedium
      case TitleSmall => titleSmall
      case BodyLarge => bodyLarge
      case BodyMedium => bodyMedium
      case BodySmall => bodySmall
      case LabelLarge => labelLarge
      case LabelMedium => labelMedium
      case LabelSmall => labelSmall
    }
  }

  /** The Material 3 shape slots. */
  datatype ShapeSlot = ExtraSmall | Small | MediumShape | Large | ExtraLarge

  datatype Shapes3 = Shapes3(
    extraSmall: CornerBasedShape, small: CornerBasedShape, medium: CornerBasedShape,
    large: CornerBasedShape, extraLarge: CornerBasedShape)
  {
    function Get(slot: ShapeSlot): CornerBasedShape {
      match slot
      case ExtraSmall => extraSmall
      case Small => small
      case MediumShape => medium
      case Large => large
      case ExtraLarge => extraLarge
    }
  }

  /** The Material 3 theme a composable installs. */
  datatype Material3Values = Material3Values(colorScheme: ColorScheme, typography: Typography3, shapes: Shapes3)
}
