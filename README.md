# Material theme adapter: attribute resolution model

This project models the decision logic of the Material Components theme
adapter for Jetpack Compose. The adapter reads an Android theme, or a text or
shape appearance style, turns the attribute values into Compose theme values,
and fails fast on themes it cannot read. The model covers four parts:

- **Attribute readers and appearance parsers** (`TypedArrayUtils.kt`, module
  `TypedArrayUtils`):
  - text units, corner sizes, colours and font families;
  - the text-appearance parser, with its precedence chains and weight buckets;
  - the shape-appearance parser, with its LTR/RTL corner mapping.
- **The Material Components assembler** (`MaterialThemeFromMdcTheme.kt`,
  module `MaterialThemeFromMdcTheme`):
  - the colour palette, typography and shapes of `generateMaterialThemeFromMdcTheme`;
  - this file's private copies of the readers and parsers;
  - the `?:` fallback of the composable.
- **Two Material 3 assemblers**:
  - `lib/.../Mdc3Theme.kt` (module `Mdc3ThemeLib`) reads a colour scheme and a typography;
  - `material3Lib/.../Mdc3Theme.kt` (module `Mdc3ThemeMaterial3`) reads a colour scheme,
    a typography and five shapes;
  - for both, the `?:` fallback of the composable and its content colour.

How the platform and the toolkit appear in the model:

- **Attribute sets.** An attribute set is a finite `map<Attr, AttrValue>`. An attribute
  that is not in the map is one the style does not define (`hasValue` is false). The
  value keeps its `TypedValue` type: string (with its resource id), dimension, fraction,
  colour, int, boolean, float or reference.
- **Context.** The platform is a `Context` record:
  - the theme's attributes;
  - `styleOf`, the attributes `obtainStyledAttributes` yields for a style resource;
  - the SDK level;
  - `parseFontXml`, the font XML parser's result for a font resource.
- **Numbers.** Numeric conversions are symbolic terms of `Scalar` and are never
  evaluated. This covers `complexToFloat`, `getDimension`, `getDimensionPixelSize`,
  `getFraction` and px-to-sp.
- **Failures.** An exception is the `Err` half of a `Result`. This covers the
  `require` checks, `getResourceIdOrThrow`, `getColorOrThrow` on a non-colour, and an
  unknown `cornerFamily`.
- **Nulls.** A Kotlin nullable value is an `Option`.
- **Toolkit values.** Compose's colours, text units, text styles, shapes, palettes,
  schemes and typographies are records. A slot the adapter does not pass to a toolkit
  constructor is `None`, meaning "the toolkit's default". `Color.Unset` and
  `TextUnit.Inherit` are the older names of `Color.Unspecified` and
  `TextUnit.Unspecified`, and are the same value here.
- **Empty defaults.** `Typography()` in the Material Components assembler and
  `Shapes()` (`emptyShapes`) in the Material 3 adapter are parameters.
- **The 5-argument parser.** Both Material 3 assemblers call a `textStyleFromTextAppearance`
  that takes a default font family. That function is not part of this model, so it is
  the parameter `parse` of type `TextStyleParser`.

In three places the code departs from its evident intent (the third appears in both
text-style parsers); they are listed under "## Findings". For each, the as-written
behaviour is modelled too, and a lemma shows where it departs. The rest of the model uses the corrected behaviour.

## Model

| member | source | states |
|---|---|---|
| TypedArrayUtils.HasFlagIsBitAnd | lib/src/main/java/com/google/android/material/composethemeadapter/TypedArrayUtils.kt:92-95 | the flag test used for ITALIC and BOLD is exactly the source's `(flags and mask) != 0` on the 32-bit two's-complement pattern, negative values included |
| TypedArrayUtils.ComplexUnitCompat | lib/src/main/java/com/google/android/material/composethemeadapter/TypedArrayUtils.kt:348-352 | the hand-written shift-and-mask below API 23 gives the same unit as the platform accessor, so the unit never depends on the SDK level |
| TypedArrayUtils.TextFontWeightBucket | lib/src/main/java/com/google/android/material/composethemeadapter/TypedArrayUtils.kt:96-104 | a weight has a bucket iff it is in 0..999; the bucket is the nearest multiple of 100 clamped to 100..900 (reference definition `NearestHundred`) |
| TypedArrayUtils.BucketsMonotone | lib/src/main/java/com/google/android/material/composethemeadapter/TypedArrayUtils.kt:96-104 | a heavier requested weight never maps to a lighter bucket |
| TypedArrayUtils.FontWeightOf | lib/src/main/java/com/google/android/material/composethemeadapter/TypedArrayUtils.kt:259-271 | agrees with the text-appearance buckets on 0..999, is W400 everywhere else, and is always a multiple of 100 in 100..900 |
| TypedArrayUtils.NamedFontFamily | lib/src/main/java/com/google/android/material/composethemeadapter/TypedArrayUtils.kt:206-213 | a string names a family iff it is one of the platform's eight generic family names; only the sans-serif variants imply a weight other than normal, and those weights are thin, light, medium and black |
| TypedArrayUtils.FontsOfPointwise | lib/src/main/java/com/google/android/material/composethemeadapter/TypedArrayUtils.kt:243-250 | the parsed family keeps the parser's font files one for one and in order; font i carries file i's resource id, bucketed weight and italic flag |
| TypedArrayUtils.FontsOfWeights | lib/src/main/java/com/google/android/material/composethemeadapter/TypedArrayUtils.kt:245-249 | every font of a parsed XML family has a weight that is a multiple of 100 in 100..900 |
| TypedArrayUtils.ParseXmlFontFamily | lib/src/main/java/com/google/android/material/composethemeadapter/TypedArrayUtils.kt:236-257 | a family results iff the parser reports a family of font files; it has one font per file, in the parser's order, and font i carries file i's resource id, its weight bucketed by fontWeightOf and its italic flag |
| TypedArrayUtils.GetFontFamilyOrNull | lib/src/main/java/com/google/android/material/composethemeadapter/TypedArrayUtils.kt:202-232 | only a string value yields a family; a generic name wins; otherwise a family results iff the value is a `res/font` resource (non-zero id) and, where it is an `.xml` on API 23+, the XML parses; that family has normal weight and is the parsed family or the single font |
| TypedArrayUtils.GetComposeColor | lib/src/main/java/com/google/android/material/composethemeadapter/TypedArrayUtils.kt:191-194 | an undefined attribute gives the fallback; a defined one gives its colour or fails with NotAColor; with an unspecified fallback the result is unspecified exactly when the attribute is undefined |
| TypedArrayUtils.GetTextUnitOrNull | lib/src/main/java/com/google/android/material/composethemeadapter/TypedArrayUtils.kt:300-317 | a unit results iff the value is a dimension and is never unspecified; SP gives sp, DIP gives em, any other unit gives the px dimension converted to sp |
| TypedArrayUtils.GetTextUnit | lib/src/main/java/com/google/android/material/composethemeadapter/TypedArrayUtils.kt:287-291 | a non-dimension gives the fallback; a dimension gives what getTextUnitOrNull gives |
| TypedArrayUtils.GetCornerSizeOrNull | lib/src/main/java/com/google/android/material/composethemeadapter/TypedArrayUtils.kt:325-343 | a size results iff the value is a dimension or a fraction; DIP gives a dp size, PX a float size, any other unit the integer pixel size, a fraction its float value |
| TypedArrayUtils.AbsentTextStyleIsBoldItalicAsWritten | lib/src/main/java/com/google/android/material/composethemeadapter/TypedArrayUtils.kt:59-111 | as written, an appearance without `textStyle` and `textFontWeight` tests as both italic and bold, so it comes out italic and W700 whatever the family implies |
| TypedArrayUtils.TextStyleFlags | lib/src/main/java/com/google/android/material/composethemeadapter/TypedArrayUtils.kt:59 | the corrected flag read: an absent `textStyle` has neither the ITALIC nor the BOLD flag; a present int value is read as written |
| TypedArrayUtils.AbsentTextStyleIsPlain | lib/src/main/java/com/google/android/material/composethemeadapter/TypedArrayUtils.kt:92-111 | with the corrected read, such an appearance is upright and takes the family's implied weight, or none |
| TypedArrayUtils.FamilyOf | lib/src/main/java/com/google/android/material/composethemeadapter/TypedArrayUtils.kt:84-91 | a resolved family wins; otherwise `typeface` 1, 2 and 3 give sans-serif, serif and monospace, and anything else none |
| TypedArrayUtils.WeightOf | lib/src/main/java/com/google/android/material/composethemeadapter/TypedArrayUtils.kt:96-111 | an in-range `textFontWeight` wins; otherwise the BOLD flag gives bold; otherwise the family's implied weight; otherwise none |
| TypedArrayUtils.ShadowOf | lib/src/main/java/com/google/android/material/composethemeadapter/TypedArrayUtils.kt:113-121 | a shadow exists iff the shadow colour is specified, and it carries that colour |
| TypedArrayUtils.TextStyleFromTextAppearance | lib/src/main/java/com/google/android/material/composethemeadapter/TypedArrayUtils.kt:52-133 | parsing fails iff a read text colour or the shadow colour is not a colour; text colour only when requested; font size is the dimension's text unit, else unspecified; line height app, then android, then unspecified; family app, then android, then typeface; italic iff the ITALIC flag; weight textFontWeight bucket, then BOLD, then the family's weight; shadow iff shadowColor is defined, with that colour, the dx/dy offset and the radius; letter spacing the float in em or exactly 0.em; feature settings the string; the `textStyle` flags are read as written (`AsWritten`) or corrected (`Corrected`) |
| TypedArrayUtils.AbsentTextStyleParses | lib/src/main/java/com/google/android/material/composethemeadapter/TypedArrayUtils.kt:59-111 | for an appearance without `textStyle` and `textFontWeight`, the whole parser gives italic W700 as written and upright text at the family's weight when corrected; the read never decides failure |
| TypedArrayUtils.CornerOrDefault | lib/src/main/java/com/google/android/material/composethemeadapter/TypedArrayUtils.kt:168-183 | a corner is its own attribute's size, else `cornerSize`'s size, else the fallback |
| TypedArrayUtils.CornerFamilyOf | lib/src/main/java/com/google/android/material/composethemeadapter/TypedArrayUtils.kt:167-185 | `cornerFamily` 0 is rounded, 1 is cut, and every other value fails with UnknownCornerFamily |
| TypedArrayUtils.ParseShapeAppearance | lib/src/main/java/com/google/android/material/composethemeadapter/TypedArrayUtils.kt:135-187 | fails iff `cornerFamily` (default 0) is neither 0 nor 1; otherwise the family follows it, and under LTR start/end take left/right while under RTL they take right/left, each corner resolving specific, then `cornerSize`, then the fallback's same corner |
| TypedArrayUtils.ParseShapeAppearanceRtlMirrorsLtr | lib/src/main/java/com/google/android/material/composethemeadapter/TypedArrayUtils.kt:157-161 | parsing under RTL is parsing under LTR against the mirrored fallback, then mirroring start and end |
| TypedArrayUtils.ParseShapeAppearanceNoCorners | lib/src/main/java/com/google/android/material/composethemeadapter/TypedArrayUtils.kt:167-185 | an appearance that sets no corner size keeps all four corners of the fallback in either direction |
| MaterialThemeFromMdcTheme.LegacyTableMissesSansSerif | lib/src/main/java/com/google/android/material/composethemeadapter/MaterialThemeFromMdcTheme.kt:525-532 | as written the table does not recognise "sans-serif" or "sans-serif-light" but does recognise the non-name "san-serif" |
| MaterialThemeFromMdcTheme.LegacyTableAgreesElsewhere | lib/src/main/java/com/google/android/material/composethemeadapter/MaterialThemeFromMdcTheme.kt:525-532 | apart from the four spellings involved, the table as written is the platform-name table |
| MaterialThemeFromMdcTheme.LegacyGetFontFamilyOrNull | lib/src/main/java/com/google/android/material/composethemeadapter/MaterialThemeFromMdcTheme.kt:517-538 | only strings yield a family; a non-zero resource id is checked first and always gives the single-font family at normal weight; otherwise a family results iff the string is a generic family name |
| MaterialThemeFromMdcTheme.LegacyGetFontFamily | lib/src/main/java/com/google/android/material/composethemeadapter/MaterialThemeFromMdcTheme.kt:507-509 | the resolved family, else the fallback family at normal weight |
| MaterialThemeFromMdcTheme.LegacyFontFamilyPrecedence | lib/src/main/java/com/google/android/material/composethemeadapter/MaterialThemeFromMdcTheme.kt:343-355 | `android:fontFamily` is consulted only when the app `fontFamily` is absent or does not resolve |
| MaterialThemeFromMdcTheme.LegacyTextStyleFromTextAppearance | lib/src/main/java/com/google/android/material/composethemeadapter/MaterialThemeFromMdcTheme.kt:328-412 | the same failure, colour, size, style, weight, shadow and feature-settings rules as the newer parser, with three differences: the family is this file's `LegacyFontFamily` (a non-zero resource id first as a single font, with no res/font or .xml check, then this file's name table), line height comes only from `android:lineHeight`, and an absent letter spacing is unspecified; the `textStyle` flags are read as written or corrected |
| MaterialThemeFromMdcTheme.LegacyAbsentTextStyleParses | lib/src/main/java/com/google/android/material/composethemeadapter/MaterialThemeFromMdcTheme.kt:335-393 | this parser reads `textStyle` with the same -1 default: without `textStyle` and `textFontWeight` it gives italic W700 as written and upright text at the family's weight when corrected |
| MaterialThemeFromMdcTheme.LetterSpacingDefaultsDiffer | lib/src/main/java/com/google/android/material/composethemeadapter/MaterialThemeFromMdcTheme.kt:404-409 | for an appearance without letter spacing this parser gives unspecified where the newer one gives 0.em |
| MaterialThemeFromMdcTheme.ReadShapeAppearance | lib/src/main/java/com/google/android/material/composethemeadapter/MaterialThemeFromMdcTheme.kt:414-461 | fails iff `cornerFamily` is neither 0 nor 1; no mirroring: each absolute corner is its own attribute, else `cornerSize`, else the fallback size |
| MaterialThemeFromMdcTheme.MergeTypographyAsWrittenIgnoresDefaults | lib/src/main/java/com/google/android/material/composethemeadapter/MaterialThemeFromMdcTheme.kt:477-491 | as written, the merge returns the parsed styles whatever the receiver holds |
| MaterialThemeFromMdcTheme.MergeTypographyCounterexample | lib/src/main/java/com/google/android/material/composethemeadapter/MaterialThemeFromMdcTheme.kt:477-491 | a default h1 size of 96sp over an empty parsed h1 is lost as written and kept by the corrected merge |
| MaterialThemeFromMdcTheme.MergeTypography | lib/src/main/java/com/google/android/material/composethemeadapter/MaterialThemeFromMdcTheme.kt:463-491 | every slot of the result is the parsed style of that slot merged over the receiver's style of that slot |
| MaterialThemeFromMdcTheme.MergeTypographyKeepsDefaults | lib/src/main/java/com/google/android/material/composethemeadapter/MaterialThemeFromMdcTheme.kt:212-220 | a field the parsed style leaves unspecified keeps the default's value, and a specified field wins |
| MaterialThemeFromMdcTheme.TypographyOf | lib/src/main/java/com/google/android/material/composethemeadapter/MaterialThemeFromMdcTheme.kt:218-299 | the thirteen slots are read in order; the result succeeds iff every slot read succeeds, each slot holds its own read, and a failure is one slot's failure |
| MaterialThemeFromMdcTheme.ReadTypography | lib/src/main/java/com/google/android/material/composethemeadapter/MaterialThemeFromMdcTheme.kt:218-299 | every slot is parsed from its same-named `textAppearance...` reference with the same `setTextColors`, and reading succeeds iff every slot does |
| MaterialThemeFromMdcTheme.ReadColorPalette | lib/src/main/java/com/google/android/material/composethemeadapter/MaterialThemeFromMdcTheme.kt:161-208 | succeeds iff all twelve palette attributes are undefined or colours; `isLight` is `isLightTheme` defaulting to true; every colour lands in its same-named slot; `secondaryVariant` is passed only to the light palette |
| MaterialThemeFromMdcTheme.ReadShapes | lib/src/main/java/com/google/android/material/composethemeadapter/MaterialThemeFromMdcTheme.kt:304-322 | succeeds iff the three shape appearance references are set and each appearance reads; small, medium and large come from their own references with fallback sizes 4dp, 4dp and 0dp; a missing small reference fails with that attribute |
| MaterialThemeFromMdcTheme.GenerateMaterialThemeFromMdcTheme | lib/src/main/java/com/google/android/material/composethemeadapter/MaterialThemeFromMdcTheme.kt:147-326 | fails iff `isMaterialTheme` is undefined or a requested palette, typography or shapes read fails, and without the marker the failure is NotMaterialTheme; each component is present iff its flag is on and is then the palette, the merged typography or the shapes read from the theme |
| MaterialThemeFromMdcTheme.MissingAppearanceFails | lib/src/main/java/com/google/android/material/composethemeadapter/MaterialThemeFromMdcTheme.kt:218-299 | with typography requested, a theme without any one of the thirteen appearance references fails |
| MaterialThemeFromMdcTheme.MaterialThemeFromMdcTheme | lib/src/main/java/com/google/android/material/composethemeadapter/MaterialThemeFromMdcTheme.kt:105-110 | the installed theme takes each generated component, else the current theme's |
| MaterialThemeFromMdcTheme.ReadFlagOffPreservesCurrent | lib/src/main/java/com/google/android/material/composethemeadapter/MaterialThemeFromMdcTheme.kt:69-74 | a read flag that is off leaves the current theme's component in place |
| Mdc3ThemeLib.SchemeAttrInjective | lib/src/main/java/com/google/android/material/composethemeadapter/Mdc3Theme.kt:143-167 | no two colour-scheme slots are read from the same theme attribute |
| Mdc3ThemeLib.SchemeVariantOf | lib/src/main/java/com/google/android/material/composethemeadapter/Mdc3Theme.kt:170 | the dark scheme exactly when `isLightTheme` is set to false; an undefined `isLightTheme` gives the light scheme |
| Mdc3ThemeLib.ReadColorScheme | lib/src/main/java/com/google/android/material/composethemeadapter/Mdc3Theme.kt:141-231 | succeeds iff every one of the 26 slot colours reads; every slot holds its attribute's colour in both the light and the dark scheme; the variant follows `isLightTheme`; no surfaceTint is passed |
| Mdc3ThemeLib.DefaultFontFamily | lib/src/main/java/com/google/android/material/composethemeadapter/Mdc3Theme.kt:242-249 | none unless requested; then the theme's app `fontFamily`, else its `android:fontFamily`, family only, else none |
| Mdc3ThemeLib.ReadTypography3 | lib/src/main/java/com/google/android/material/composethemeadapter/Mdc3Theme.kt:241-357 | succeeds iff every slot reads; each of the fifteen slots is the parser's style for its own appearance reference with the same `setTextColors` and default family; a missing reference fails |
| Mdc3ThemeLib.CreateMdc3Theme | lib/src/main/java/com/google/android/material/composethemeadapter/Mdc3Theme.kt:128-361 | fails unless `isMaterial3Theme` is defined; fails iff the marker is missing or a requested component fails; each component is present iff its flag is on and is then the scheme or typography read |
| Mdc3ThemeLib.Mdc3Theme | lib/src/main/java/com/google/android/material/composethemeadapter/Mdc3Theme.kt:83-92 | scheme and typography come from the parameters, else the current ones; shapes stay the current ones; the content colour is the resulting onBackground |
| Mdc3ThemeLib.ReadFlagOffPreservesCurrent | lib/src/main/java/com/google/android/material/composethemeadapter/Mdc3Theme.kt:47-49 | a read flag that is off leaves the current theme's component in place |
| Mdc3ThemeMaterial3.ReadColorScheme3 | material3Lib/src/main/java/com/google/android/material/composethemeadapter3/Mdc3Theme.kt:163-256 | succeeds iff the 26 slot colours and `elevationOverlayColor` read; every slot holds its attribute's colour whichever variant `isLightTheme` picks; surfaceTint is the elevation overlay colour |
| Mdc3ThemeMaterial3.SchemesAgreeButSurfaceTint | material3Lib/src/main/java/com/google/android/material/composethemeadapter3/Mdc3Theme.kt:165-255 | where this scheme reads, the other library's scheme reads too and differs from it only in surfaceTint |
| Mdc3ThemeMaterial3.ReadSlotShape | material3Lib/src/main/java/com/google/android/material/composethemeadapter3/Mdc3Theme.kt:389-394 | a shape slot fails on a missing reference and is otherwise the appearance parsed against the same slot of the empty shapes with the caller's layout direction |
| Mdc3ThemeMaterial3.Shapes3Of | material3Lib/src/main/java/com/google/android/material/composethemeadapter3/Mdc3Theme.kt:387-420 | the five slots are read in order; the result succeeds iff every slot does and each slot holds its own read |
| Mdc3ThemeMaterial3.ReadShapes3 | material3Lib/src/main/java/com/google/android/material/composethemeadapter3/Mdc3Theme.kt:387-420 | every shape slot is read from its same-named shape appearance reference |
| Mdc3ThemeMaterial3.MissingShapeAppearanceFails | material3Lib/src/main/java/com/google/android/material/composethemeadapter3/Mdc3Theme.kt:387-420 | with shapes requested, a theme without any one of the five shape appearance references fails |
| Mdc3ThemeMaterial3.CreateMdc3Theme | material3Lib/src/main/java/com/google/android/material/composethemeadapter3/Mdc3Theme.kt:148-424 | fails unless `isMaterial3Theme` is defined; fails iff the marker is missing or a requested component fails; each component is present iff its flag is on and is then the scheme, typography or shapes read |
| Mdc3ThemeMaterial3.Mdc3Theme | material3Lib/src/main/java/com/google/android/material/composethemeadapter3/Mdc3Theme.kt:95-105 | each component comes from the parameters, else the current theme; the content colour is the resulting onBackground |
| Mdc3ThemeMaterial3.ContentColorIsOnBackground | material3Lib/src/main/java/com/google/android/material/composethemeadapter3/Mdc3Theme.kt:99-103 | with the scheme read, the content colour is the theme's `colorOnBackground` |
| Mdc3ThemeMaterial3.ReadFlagOffPreservesCurrent3 | material3Lib/src/main/java/com/google/android/material/composethemeadapter3/Mdc3Theme.kt:51-56 | a read flag that is off leaves the current theme's component in place |

## Left out

- Composable plumbing is not modelled: `remember`, `MaterialTheme(...)`, `CompositionLocalProvider` and the ambient context. Only the `?:` fallback and the content colour are kept.
- The reflective theme-key cache is not modelled: `Resources.Theme.key` and its two module-level globals. It is reflection over a hidden platform API and only serves caching.
- Resource I/O is not modelled: `obtainStyledAttributes`, `use`, `getValue` and the thread-local scratch `TypedValue`. An attribute map and the `styleOf` lookup stand for them.
- Float numerics are symbolic: complex-to-float, dimensions, fractions, px-to-sp, and the shadow offsets and radius. Two values that the platform computes equal but that come from different terms are distinct here.
- Font loading is not modelled: `Font(...)`, `toFontFamily` and the XML parser. The parser's result is the parameter `parseFontXml`. The closing of the XML parser is left out.
- TypedArrayUtils.GetComposeColor: `getColorOrThrow` also resolves colour-state-list references. Here only a colour value reads, and every other defined value fails.
- Typed accessors read a value of the wrong type as their default, and `getInt` reads only ints. The platform's own coercions (a string "1" read as an int, etc.) are not modelled.
- TypedArrayUtils.GetCornerSizeOrNull: the result keeps which `CornerSize` overload is called (dp, float pixels, integer pixels). What the float and integer overloads mean is up to the toolkit version and is not modelled.
- Toolkit constructors are records. The defaults of `lightColorPalette`, `darkColorPalette`, `lightColorScheme`, `darkColorScheme`, `Typography()` and `Shapes()` stay uninterpreted: `None`, or a parameter.
- The Material 3 text-appearance parser that takes a default font family is not part of this model. `parse` is a parameter.
- material3Lib's own attribute utilities are not part of this model. The model assumes they match the TypedArrayUtils readers, and uses those readers for the material3 shapes (`Mdc3ThemeMaterial3.ReadSlotShape`) and for the theme's default font family (`Mdc3ThemeLib.DefaultFontFamily`).
- The float value of letter spacing and other float attributes is their stored bits (`FloatBits`), not a number.

## Findings

| source | as written | input that shows it | evidently intended | confidence | as-written member | corrected member |
|---|---|---|---|---|---|---|
| lib/src/main/java/com/google/android/material/composethemeadapter/MaterialThemeFromMdcTheme.kt:525-532 | the named-font table matches "san-serif" and "san-serif-light" | a text appearance with `fontFamily="sans-serif"` (a plain string) resolves to no family | the platform names "sans-serif" and "sans-serif-light", as in TypedArrayUtils.kt:206-213 | high, not executed | MaterialThemeFromMdcTheme.LegacyTableMissesSansSerif | TypedArrayUtils.NamedFontFamily |
| lib/src/main/java/com/google/android/material/composethemeadapter/MaterialThemeFromMdcTheme.kt:477-491 | `Typography.merge` sets each slot to `h1.merge(h1)` and so on, merging each parsed style with itself | a default h1 of 96sp merged with a parsed h1 that sets no size gives an h1 without a size | `this.h1.merge(h1)`: each parsed style over the receiver's style, as the comment at lines 212-217 says | high, not executed | MaterialThemeFromMdcTheme.MergeTypographyCounterexample | MaterialThemeFromMdcTheme.MergeTypography |
| lib/src/main/java/com/google/android/material/composethemeadapter/TypedArrayUtils.kt:59 | an absent `android:textStyle` reads as -1, and the flag tests at lines 92-111 treat -1 as having every flag set | an appearance that sets neither `textStyle` nor `textFontWeight` comes out italic and bold | -1 as "not set": no italic and no bold flag | medium, not executed | TypedArrayUtils.AbsentTextStyleParses | TypedArrayUtils.TextStyleFlags |
| lib/src/main/java/com/google/android/material/composethemeadapter/MaterialThemeFromMdcTheme.kt:335 | this file's parser also reads an absent `android:textStyle` as -1, and its flag tests treat -1 as having every flag set | an appearance that sets neither `textStyle` nor `textFontWeight` comes out italic and bold | -1 as "not set": no italic and no bold flag | medium, not executed | MaterialThemeFromMdcTheme.LegacyAbsentTextStyleParses | TypedArrayUtils.TextStyleFlags |
