/** The assembler of the Material 3 adapter library
    (material3Lib/.../Mdc3Theme.kt): reads a colour scheme, a typography and
    five shapes from a theme extending Theme.Material3. Its slot tables, its
    typography reading and its default font family are the same code as in
    the Material Components library's Material 3 assembler and are used from
    there; shapes are parsed with the layout direction. */
module Mdc3ThemeMaterial3 {
  import opened Wrappers
  import opened Resources
  import opened Compose
  import opened TypedArrayUtils
  import opened Mdc3ThemeLib

  /** The three components; each is absent when its read flag is off. */
  datatype Theme3Parameters = Theme3Parameters(
    colorScheme: Option<ColorScheme>,
    typography: Option<Typography3>,
    shapes: Option<Shapes3>)

  /** The colour scheme: the 26 slot colours, with elevationOverlayColor read
      between onSurfaceVariant and the inverse surface, passed as surfaceTint. */
  function ReadColorScheme3(ta: AttrSet): (r: Result<ColorScheme, Failure>)
    ensures r.Ok? <==>
      (forall slot :: SchemeColor(ta, slot).Ok?) && ThemeColorOk(ta, ElevationOverlayColor)
    ensures r.Ok? ==> forall slot :: SchemeColor(ta, slot) == Ok(r.value.Get(slot))
    ensures r.Ok? ==> r.value.variant == SchemeVariantOf(ta)
    ensures r.Ok? ==>
      r.value.surfaceTint == Some(GetComposeColor(ta, ElevationOverlayColor, UnspecifiedColor).value)
  {
    var primary :- SchemeColor(ta, Primary);
    var onPrimary :- SchemeColor(ta, OnPrimary);
    var primaryInverse :- SchemeColor(ta, InversePrimary);
    var primaryContainer :- SchemeColor(ta, PrimaryContainer);
    var onPrimaryContainer :- SchemeColor(ta, OnPrimaryContainer);
    var secondary :- SchemeColor(ta, Secondary);
    var onSecondary :- SchemeColor(ta, OnSecondary);
    var secondaryContainer :- SchemeColor(ta, SecondaryContainer);
    var onSecondaryContainer :- SchemeColor(ta, OnSecondaryContainer);
    var tertiary :- SchemeColor(ta, Tertiary);
    var onTertiary :- SchemeColor(ta, OnTertiary);
    var tertiaryContainer :- SchemeColor(ta, TertiaryContainer);
    var onTertiaryContainer :- SchemeColor(ta, OnTertiaryContainer);
    var background :- SchemeColor(ta, Background);
    var onBackground :- SchemeColor(ta, OnBackground);
    var surface :- SchemeColor(ta, Surface);
    var onSurface :- SchemeColor(ta, OnSurface);
    var surfaceVariant :- SchemeColor(ta, SurfaceVariant);
    var onSurfaceVariant :- SchemeColor(ta, OnSurfaceVariant);
    var elevationOverlay :- GetComposeColor(ta, ElevationOverlayColor, UnspecifiedColor);
    var surfaceInverse :- SchemeColor(ta, InverseSurface);
    var onSurfaceInverse :- SchemeColor(ta, InverseOnSurface);
    var outline :- SchemeColor(ta, Outline);
    var error :- SchemeColor(ta, Error);
    var onError :- SchemeColor(ta, OnError);
    var errorContainer :- SchemeColor(ta, ErrorContainer);
    var onErrorContainer :- SchemeColor(ta, OnErrorContainer);
    var scheme := ColorScheme(
      SchemeVariantOf(ta),
      primary, onPrimary, primaryInverse, primaryContainer, onPrimaryContainer,
      secondary, onSecondary, secondaryContainer, onSecondaryContainer,
      tertiary, onTertiary, tertiaryContainer, onTertiaryContainer,
      background, onBackground, surface, onSurface, surfaceVariant, onSurfaceVariant,
      Some(elevationOverlay),
      surfaceInverse, onSurfaceInverse, outline,
      error, onError, errorContainer, onErrorContainer);
    assert forall slot :: SchemeColor(ta, slot) == Ok(scheme.Get(slot)) by {
      forall slot ensures SchemeColor(ta, slot) == Ok(scheme.Get(slot)) {
        ColorSlotCases(slot);
      }
    }
    Ok(scheme)
  }

  /** A colour attribute that reads without throwing. */
  predicate ThemeColorOk(ta: AttrSet, x: Attr) {
    x !in ta || ta[x].ColorVal?
  }

  /** The two libraries read the same 26 slots; this one adds surfaceTint. */
  lemma SchemesAgreeButSurfaceTint(ta: AttrSet)
    requires ReadColorScheme3(ta).Ok?
    ensures ReadColorScheme(ta).Ok?
    ensures ReadColorScheme3(ta).value == ReadColorScheme(ta).value.(surfaceTint := ReadColorScheme3(ta).value.surfaceTint)
  {
    var a := ReadColorScheme3(ta).value;
    var b := ReadColorScheme(ta).value;
    assert forall slot :: a.Get(slot) == b.Get(slot);
    assert a.primary == b.primary by { assert a.Get(Primary) == b.Get(Primary); }
  }

  // ----------------------------------------------------------------- shapes

  /** The theme attribute each shape slot is read from. */
  function ShapeAttr(slot: ShapeSlot): Attr {
    match slot
    case ExtraSmall => ShapeAppearanceCornerExtraSmall
    case Small => ShapeAppearanceCornerSmall
    case MediumShape => ShapeAppearanceCornerMedium
    case Large => ShapeAppearanceCornerLarge
    case ExtraLarge => ShapeAppearanceCornerExtraLarge
  }

  /** One slot: the shape appearance reference, which must be set, parsed
      against the same slot of the empty shapes. */
  function ReadSlotShape(ctx: Context, emptyShapes: Shapes3, layoutDirection: LayoutDirection, slot: ShapeSlot)
    : (r: Result<CornerBasedShape, Failure>)
    ensures ShapeAttr(slot) !in ctx.theme ==> r == Err(MissingAttribute(ShapeAttr(slot)))
    ensures ShapeAttr(slot) in ctx.theme ==>
      r == ParseShapeAppearance(ctx, ResourceIdOf(ctx.theme[ShapeAttr(slot)]), emptyShapes.Get(slot), layoutDirection)
  {
    var id :- GetResourceIdOrThrow(ctx.theme, ShapeAttr(slot));
    ParseShapeAppearance(ctx, id, emptyShapes.Get(slot), layoutDirection)
  }

  lemma ShapeSlotCases(slot: ShapeSlot)
    ensures slot in {ExtraSmall, Small, MediumShape, Large, ExtraLarge}
  {
  }

  /** The five shapes, in slot order. `emptyShapes` is the toolkit's `Shapes()`. */
  function ReadShapes3(ctx: Context, emptyShapes: Shapes3, layoutDirection: LayoutDirection): (r: Result<Shapes3, Failure>)
    ensures r.Ok? <==> forall slot :: ReadSlotShape(ctx, emptyShapes, layoutDirection, slot).Ok?
    ensures r.Ok? ==> forall slot :: ReadSlotShape(ctx, emptyShapes, layoutDirection, slot) == Ok(r.value.Get(slot))
  {
    var read := (slot: ShapeSlot) => ReadSlotShape(ctx, emptyShapes, layoutDirection, slot);
    assert forall slot :: read(slot) == ReadSlotShape(ctx, emptyShapes, layoutDirection, slot);
    Shapes3Of(read)
  }

  /** Five shapes from one reader per slot, read in slot order; the first
      failing slot's failure is the result. */
  function Shapes3Of(read: ShapeSlot -> Result<CornerBasedShape, Failure>): (r: Result<Shapes3, Failure>)
    ensures r.Ok? <==> forall slot :: read(slot).Ok?
    ensures r.Ok? ==> forall slot :: read(slot) == Ok(r.value.Get(slot))
  {
    var extraSmall :- read(ExtraSmall);
    var small :- read(Small);
    var medium :- read(MediumShape);
    var large :- read(Large);
    var extraLarge :- read(ExtraLarge);
    var shapes := Shapes3(extraSmall, small, medium, large, extraLarge);
    assert forall slot :: read(slot) == Ok(shapes.Get(slot)) by {
      forall slot ensures read(slot) == Ok(shapes.Get(slot)) {
        ShapeSlotCases(slot);
      }
    }
    Ok(shapes)
  }

  /** With shapes requested, a theme that lacks one of the five shape
      appearance references fails. */
  lemma MissingShapeAppearanceFails(ctx: Context, emptyShapes: Shapes3, layoutDirection: LayoutDirection, slot: ShapeSlot)
    requires ShapeAttr(slot) !in ctx.theme
    ensures ReadShapes3(ctx, emptyShapes, layoutDirection).Err?
  {
    assert ReadSlotShape(ctx, emptyShapes, layoutDirection, slot).Err?;
  }

  // --------------------------------------------------------------- assembly

  /** createMdc3Theme of the Material 3 adapter. `emptyShapes` is `Shapes()`. */
  function CreateMdc3Theme(ctx: Context, parse: TextStyleParser, layoutDirection: LayoutDirection,
                           readColorScheme: bool, readTypography: bool, readShapes: bool,
                           setTextColors: bool, setDefaultFontFamily: bool, emptyShapes: Shapes3)
    : (r: Result<Theme3Parameters, Failure>)
    // the theme must extend Theme.Material3
    ensures IsMaterial3Theme !in ctx.theme ==> r == Err(NotMaterial3Theme)
    // a flag that is off leaves its component absent; one that is on fills it
    ensures r.Ok? ==> (r.value.colorScheme.Some? <==> readColorScheme)
    ensures r.Ok? ==> (r.value.typography.Some? <==> readTypography)
    ensures r.Ok? ==> (r.value.shapes.Some? <==> readShapes)
    ensures r.Ok? && readColorScheme ==> ReadColorScheme3(ctx.theme) == Ok(r.value.colorScheme.value)
    ensures r.Ok? && readTypography ==>
      ReadTypography3(ctx.theme, parse, setTextColors, DefaultFontFamily(ctx, setDefaultFontFamily))
        == Ok(r.value.typography.value)
    ensures r.Ok? && readShapes ==> ReadShapes3(ctx, emptyShapes, layoutDirection) == Ok(r.value.shapes.value)
    // errors come only from the marker or from a component that is read
    ensures r.Err? <==>
      || IsMaterial3Theme !in ctx.theme
      || (readColorScheme && ReadColorScheme3(ctx.theme).Err?)
      || (readTypography &&
          ReadTypography3(ctx.theme, parse, setTextColors, DefaultFontFamily(ctx, setDefaultFontFamily)).Err?)
      || (readShapes && ReadShapes3(ctx, emptyShapes, layoutDirection).Err?)
  {
    var ta := ctx.theme;
    if IsMaterial3Theme !in ta then Err(NotMaterial3Theme)
    else
      var colorScheme :- if readColorScheme then (var c :- ReadColorScheme3(ta); Ok(Some(c))) else Ok(None);
      var typography :- if readTypography
        then (var t :- ReadTypography3(ta, parse, setTextColors, DefaultFontFamily(ctx, setDefaultFontFamily)); Ok(Some(t)))
        else Ok(None);
      var shapes :- if readShapes then (var s :- ReadShapes3(ctx, emptyShapes, layoutDirection); Ok(Some(s))) else Ok(None);
      Ok(Theme3Parameters.Theme3Parameters(colorScheme, typography, shapes))
  }

  /** Mdc3Theme: each generated component, else the current one; content
      colour is the resulting onBackground. */
  function Mdc3Theme(params: Theme3Parameters, current: Material3Values): (r: Mdc3Content)
    ensures r.theme.colorScheme == (if params.colorScheme.Some? then params.colorScheme.value else current.colorScheme)
    ensures r.theme.typography == (if params.typography.Some? then params.typography.value else current.typography)
    ensures r.theme.shapes == (if params.shapes.Some? then params.shapes.value else current.shapes)
    ensures r.contentColor == r.theme.colorScheme.onBackground
  {
    var theme := Material3Values(
      params.colorScheme.GetOr(current.colorScheme),
      params.typography.GetOr(current.typography),
      params.shapes.GetOr(current.shapes));
    Mdc3Content(theme, theme.colorScheme.onBackground)
  }

  /** With the colour scheme read, the content colour is the theme's
      colorOnBackground (unspecified when the theme does not set it). */
  lemma ContentColorIsOnBackground(ctx: Context, parse: TextStyleParser, layoutDirection: LayoutDirection,
                                   readTypography: bool, readShapes: bool,
                                   setTextColors: bool, setDefaultFontFamily: bool, emptyShapes: Shapes3,
                                   current: Material3Values)
    requires CreateMdc3Theme(ctx, parse, layoutDirection, true, readTypography, readShapes,
                             setTextColors, setDefaultFontFamily, emptyShapes).Ok?
    ensures var p := CreateMdc3Theme(ctx, parse, layoutDirection, true, readTypography, readShapes,
                                     setTextColors, setDefaultFontFamily, emptyShapes).value;
      Ok(Mdc3Theme(p, current).contentColor) == GetComposeColor(ctx.theme, ColorOnBackground, UnspecifiedColor)
  {
    var p := CreateMdc3Theme(ctx, parse, layoutDirection, true, readTypography, readShapes,
                             setTextColors, setDefaultFontFamily, emptyShapes).value;
    assert SchemeColor(ctx.theme, OnBackground) == Ok(p.colorScheme.value.Get(OnBackground));
  }

  /** A read flag that is off preserves the current theme's component. */
  lemma ReadFlagOffPreservesCurrent3(ctx: Context, parse: TextStyleParser, layoutDirection: LayoutDirection,
                                     readColorScheme: bool, readTypography: bool, readShapes: bool,
                                     setTextColors: bool, setDefaultFontFamily: bool, emptyShapes: Shapes3,
                                     current: Material3Values)
    requires CreateMdc3Theme(ctx, parse, layoutDirection, readColorScheme, readTypography, readShapes,
                             setTextColors, setDefaultFontFamily, emptyShapes).Ok?
    ensures var p := CreateMdc3Theme(ctx, parse, layoutDirection, readColorScheme, readTypography, readShapes,
                                     setTextColors, setDefaultFontFamily, emptyShapes).value;
            var m := Mdc3Theme(p, current).theme;
      && (!readColorScheme ==> m.colorScheme == current.colorScheme)
      && (!readTypography ==> m.typography == current.typography)
      && (!readShapes ==> m.shapes == current.shapes)
  {
  }
}
