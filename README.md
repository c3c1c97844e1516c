# ColorSeq color resolution in Dafny

This project models how ColorSeq's `Color` class turns a color
specification into a finished color. A specification is one of:

- a specifier string: `R;G;B`, a palette number, a ConsoleColors name or `#RRGGBB`;
- three channels;
- a palette number;
- a ConsoleColors value.

The finished color has these fields:

- the plain sequence;
- the VT foreground and background escape sequences;
- the color type: 16-color, 255-color or true color;
- the brightness flags;
- the R, G and B channels;
- the Hex text.

Each constructor may first pass the channels through a color-blindness
simulation. Which simulation runs, and whether one runs at all, depends on
the library-wide switches in `ColorTools`.

Modules:

- `Wrappers`: `Option` and `Result`.
- `Text`: what the constructors need from .NET text handling.
  - `String.Replace` of the double quote.
  - `String.Split(';')`.
  - `Convert.ToInt32` in base 10 and base 16.
  - Decimal interpolation and the `X2` format.
- `Accessibility`: the discrete structure of `Brettel1997.Transform`.
  - The argument checks, in their order.
  - The choice of deficiency profile, with the source's constants.
  - The choice of projection plane.
  - The severity blend.
  - The sRGB/linear-RGB conversions are parameters (`Gamma`).
- `Resolution`: what each constructor computes, as a specification function.
  - The global switches are an explicit `Config` value.
  - The color data is a `Palette` value: a slot lookup plus a name lookup.
  - The two simulations are a `Transforms` value.
  - Every `ColorSeqException` and every exception a simulation throws is an `Error`.
- `ColorSeq`: the imperative side.
  - A `Color` class whose fields the constructor code assigns step by step.
  - One static factory per constructor. Each returns the new object or the error and is proved to deliver exactly what its `Resolution` function specifies.
  - `ColorTools`, which holds the lazily cached `Color.Empty`.
- `Properties`: lemmas about the specification functions.
  - Branch selection and quote handling.
  - The fields each branch produces, with and without transformation.
  - A well-formedness invariant that every produced color satisfies.
  - Round trips through the plain sequence and through the Hex text.
  - The brightness threshold.
  - The reference scenarios from the test suite.

Three behaviours of the code shape the model:

- `Color(string)` does not range-check the fields of `R;G;B`. It converts them with `Convert.ToInt32` and uses them as they are (ColorSeq/Color.cs:112-114). An out-of-range triplet is rejected only when a transformation runs and the Brettel simulation checks its own arguments (`Properties.TripletRangeCheckedOnlyByTransform`).
- Every double quote is removed before a branch is chosen, wherever it stands in the specifier (ColorSeq/Color.cs:102; `Properties.QuotesAreIgnored`).
- After `#`, the code accepts any hex digit string that `Convert.ToInt32(s, 16)` reads, of any length and either case, and keeps bits 0-23 of the number (ColorSeq/Color.cs:183-188; `Properties.HexSpecifierResolves`).

## Model

| member | source | states |
|---|---|---|
| Text.RemoveQuotes | ColorSeq/Color.cs:102 | the result holds no double quote, is no longer than the input, and keeps every other character of the input |
| Text.RemoveQuotesNoQuotes | ColorSeq/Color.cs:102 | a string without quotes is left unchanged |
| Text.RemoveQuotesIdempotent | ColorSeq/Color.cs:102 | removing quotes twice is the same as removing them once |
| Text.RemoveQuotesAppend | ColorSeq/Color.cs:102 | quote removal distributes over concatenation |
| Text.Split | ColorSeq/Color.cs:108 | there is at least one field and no field holds the separator; there is exactly one field iff the separator does not occur |
| Text.JoinSplit | ColorSeq/Color.cs:108 | joining the fields with the separator gives the original string back |
| Text.SplitThree | ColorSeq/Color.cs:108-109 | `a;b;c` with separator-free parts splits into exactly `[a, b, c]` |
| Text.Decimal | ColorSeq/Color.cs:129 | the decimal rendering is a non-empty digit string with no leading zero |
| Text.DigitsValueDecimal | ColorSeq/Color.cs:129 | reading the decimal rendering back gives the number |
| Text.ParseInt32 | ColorSeq/Color.cs:112-114 | a value is returned iff the text is a digit string whose value fits a 32-bit int; the value is at most Int32.MaxValue |
| Text.ParseInt32Decimal | ColorSeq/Color.cs:112-114 | every number up to Int32.MaxValue round-trips through its decimal text |
| Text.ParseHex | ColorSeq/Color.cs:183 | a value is returned iff the text is a non-empty string of hex digits of either case whose value fits 32 bits |
| Text.ParseHexEightDigits | ColorSeq/Color.cs:183 | one to eight hex digits always parse |
| Text.HexPadded | ColorSeq/Color.cs:220 | the rendering has at least the requested width and uses only upper-case hex digits |
| Text.X2 | ColorSeq/Color.cs:220 | defines `X2` as upper-case hex of at least two digits; `Text.X2Byte` and `Text.HexValueHexPadded` state its shape and inverse |
| Text.X2Byte | ColorSeq/Color.cs:220 | a byte renders as exactly two upper-case digits, high nibble first |
| Text.HexValueHexPadded | ColorSeq/Color.cs:220 | reading an X2 rendering back as hex gives the number |
| Text.ParseHexBytes | ColorSeq/Color.cs:183-188 | the six X2 digits of three bytes parse to the packed 24-bit number |
| Accessibility.Parameters | ColorSeq/Accessibility/Brettel1997.cs:105-118 | defines the profile chosen for each deficiency; `Accessibility.ParametersDistinct` proves the three differ |
| Accessibility.SelectPlane | ColorSeq/Accessibility/Brettel1997.cs:129-131 | the first plane when the projection on the separation normal is non-negative, else the second |
| Accessibility.Blend | ColorSeq/Accessibility/Brettel1997.cs:140-142 | defines the severity blend per channel; `Accessibility.BlendEndpoints` gives its endpoints |
| Accessibility.ParametersDistinct | ColorSeq/Accessibility/Brettel1997.cs:33-91 | each deficiency selects its own profile, and each profile has two distinct planes |
| Accessibility.BlendEndpoints | ColorSeq/Accessibility/Brettel1997.cs:140-142 | the blend at severity 0 is the original, and at severity 1 the simulated color |
| Accessibility.Transform | ColorSeq/Accessibility/Brettel1997.cs:93-103 | each argument error occurs iff that argument is the first out of range, checked in the order r, g, b, severity |
| Accessibility.TransformAccepts | ColorSeq/Accessibility/Brettel1997.cs:93-148 | the transform succeeds iff r, g and b are in [0, 255] and the severity is in [0, 1] |
| Accessibility.SeverityZeroKeepsColor | ColorSeq/Accessibility/Brettel1997.cs:120-148 | at severity 0 each channel only passes through the gamma codec and back |
| Accessibility.SeverityOneIsDichromat | ColorSeq/Accessibility/Brettel1997.cs:105-148 | at severity 1 the result is the profile's first plane when the projection on the separation normal is non-negative, else the second plane, applied to the linear color |
| Resolution.TripletText | ColorSeq/Color.cs:129 | defines the plain sequence `r;g;b` of decimal renderings; `Properties.TripletTextShape` proves it splits back into them |
| Resolution.TrueColorSequence | ColorSeq/Color.cs:131-132 | defines `ESC[layer;2;plainm`; spelled out by `Properties.TrueColorSequenceShape` |
| Resolution.IndexedSequence | ColorSeq/Color.cs:170-171 | defines `ESC[layer;5;plainm`; spelled out by `Properties.IndexedWithoutTransform` |
| Resolution.HexOf | ColorSeq/Color.cs:220 | defines Hex as `#` and the X2 text of each channel; `Properties.HexRoundTrip` proves it reads back as the same color |
| Resolution.ComputedIsBright | ColorSeq/Color.cs:136 | defines the additive brightness test against 255/2; `Properties.BrightnessThreshold` gives its integer threshold |
| Resolution.ComputedIsDark | ColorSeq/Color.cs:137 | defines the additive darkness test against 255/2; `Properties.BrightnessThreshold` gives its integer threshold |
| Resolution.IndexedType | ColorSeq/Color.cs:174 | defines the type of an untransformed slot: 255-color from 16 on, 16-color below; stated per slot by `Properties.IndexedWithoutTransform` |
| Resolution.TrueColorValue | ColorSeq/Color.cs:128-140 | defines every field of a 24-bit color from its channels; `Properties.TrueColorValueWellFormed` proves them consistent |
| Resolution.IndexedValue | ColorSeq/Color.cs:168-179 | defines every field of an untransformed palette color from its slot and entry; `Properties.IndexedValueWellFormed` proves them consistent |
| Resolution.Simulate | ColorSeq/Color.cs:119-122 | defines the choice of simulation: the simple one when EnableSimpleColorTransformation is set, else Brettel; `Properties.SimpleAlgorithmIffFlag` proves the other one never matters |
| Resolution.Filter | ColorSeq/Color.cs:115-126 | defines the optional color-blindness filter: the channels unchanged when transformation is off, else the selected simulation's result or its failure; `Properties.DisabledIgnoresSimulation` and `Properties.FilteredIsTransformed` are about it |
| Resolution.ResolveIndex | ColorSeq/Color.cs:288-320 | defines Color(int) for a palette slot; its fields are stated by `Properties.IndexedWithoutTransform` and `Properties.IndexedWithTransform` |
| Resolution.ResolveNumber | ColorSeq/Color.cs:285-321 | defines Color(int) for any number; `Properties.NumberOutsidePalette` states the rejection outside 0-255 |
| Resolution.ResolveRgb | ColorSeq/Color.cs:230-270 | defines Color(int R, int G, int B); `Properties.RgbChecksChannelsFirst` and `Properties.RgbWithTransform` state its errors and results |
| Resolution.ResolveTriplet | ColorSeq/Color.cs:108-145 | defines the `R;G;B` branch on the split fields; stated by `Properties.SemicolonSelectsTriplet` and `Properties.TripletDigitFields` |
| Resolution.ResolvePaletteText | ColorSeq/Color.cs:147-180 | defines the number-or-name branch; `Properties.NumberTextMatchesNumber` and `Properties.NameMatchesSlot` tie it to Color(int) |
| Resolution.ResolveHex | ColorSeq/Color.cs:181-213 | defines the `#` branch on the text after `#`; stated by `Properties.HexWithoutTransform` and `Properties.HexWithTransform` |
| Resolution.ResolveSpecifier | ColorSeq/Color.cs:99-221 | defines Color(string): quotes removed, then the branch chain; `Properties.QuotesAreIgnored` and `Properties.ResolvedColorsAreWellFormed` are about it |
| Resolution.ResolveUnquoted | ColorSeq/Color.cs:105-217 | defines the branch chain `;`, then number or name, then `#`, then the error; `Properties.SemicolonSelectsTriplet` and `Properties.UnrecognizedIsInvalid` state its selection |
| Resolution.RedBits | ColorSeq/Color.cs:186 | bits 16-23 are a value below 256 |
| Resolution.GreenBits | ColorSeq/Color.cs:187 | bits 8-15 are a value below 256 |
| Resolution.BlueBits | ColorSeq/Color.cs:188 | bits 0-7 are a value below 256 |
| Resolution.MaskShiftIsDivMod | ColorSeq/Color.cs:186-188 | on 32-bit words, masking and shifting select the same bits as the division form used by the bit functions |
| ColorSeq.Color.constructor | ColorSeq/Color.cs:99-100 | a fresh color starts with empty texts and zero channels |
| ColorSeq.Color.FormTrueColor | ColorSeq/Color.cs:128-140 | the fields become those of the 24-bit color of the given channels, and Hex is unchanged |
| ColorSeq.Color.FormPaletteColor | ColorSeq/Color.cs:168-179 | with transformation the fields are those of the 24-bit color of the transformed channels; without it, those of the palette slot; Hex is unchanged |
| ColorSeq.Color.PopulateHex | ColorSeq/Color.cs:220 | Hex becomes the X2 text of the current channels and nothing else changes |
| ColorSeq.Color.FilterChannels | ColorSeq/Color.cs:115-126 | the result is the selected simulation's channels, its failure, or the input channels when transformation is off |
| ColorSeq.Color.FromSpecifier | ColorSeq/Color.cs:99-221 | the factory returns a fresh color carrying exactly the fields `ResolveSpecifier` specifies, or that function's error |
| ColorSeq.Color.FromTriplet | ColorSeq/Color.cs:105-145 | delivers exactly what `ResolveTriplet` specifies for the split fields |
| ColorSeq.Color.FromPaletteText | ColorSeq/Color.cs:147-180 | delivers exactly what `ResolvePaletteText` specifies for a number or a ConsoleColors name |
| ColorSeq.Color.FromHex | ColorSeq/Color.cs:181-213 | delivers exactly what `ResolveHex` specifies; the channels are first written from the bit fields and then overwritten by the filter |
| ColorSeq.Color.FromRgb | ColorSeq/Color.cs:230-270 | delivers exactly what `ResolveRgb` specifies: the channel errors, checked in order, or a fresh 24-bit color |
| ColorSeq.Color.FromNumber | ColorSeq/Color.cs:285-321 | delivers exactly what `ResolveNumber` specifies |
| ColorSeq.Color.FromConsoleColor | ColorSeq/Color.cs:277-278 | the enumeration value delivers the same color as the number it stands for |
| ColorSeq.ColorTools.Empty | ColorSeq/Color.cs:81-93 | returns the cached instance when there is one, unchanged; otherwise returns Color(0), which becomes the new cached instance; nothing is cached when Color(0) fails |
| Properties.TrueColorValueWellFormed | ColorSeq/Color.cs:128-140 | every 24-bit color satisfies the field invariant |
| Properties.IndexedValueWellFormed | ColorSeq/Color.cs:306-320 | every untransformed palette color satisfies the field invariant |
| Properties.ResolveIndexWellFormed | ColorSeq/Color.cs:285-321 | every color built from a palette slot satisfies the field invariant |
| Properties.ResolvedColorsAreWellFormed | ColorSeq/Color.cs:99-321 | every color any constructor produces satisfies the invariant: Hex spells the channels, 24-bit colors show `r;g;b` in `;2;` sequences with computed brightness, and palette colors show a slot number in `;5;` sequences with the type following the number |
| Properties.DecimalPlain | ColorSeq/Color.cs:129 | a decimal rendering holds neither a quote nor `;` |
| Properties.TripletTextShape | ColorSeq/Color.cs:129 | the plain sequence `r;g;b` holds a `;`, no quote, and splits back into the three decimal renderings |
| Properties.BitsOfBytes | ColorSeq/Color.cs:186-188 | the bit fields of a packed 24-bit number are its three bytes |
| Properties.HashTextShape | ColorSeq/Color.cs:181-183 | `#` followed by hex digits holds no quote or `;`, is not a number, and leaves the digits after the first letter is removed |
| Properties.QuotesAreIgnored | ColorSeq/Color.cs:101-102 | a double quote anywhere in the specifier makes no difference, and nor does removing the quotes beforehand |
| Properties.SemicolonSelectsTriplet | ColorSeq/Color.cs:105-145 | with a `;`, the specifier is invalid iff it does not split into three fields, and any color produced is a true color |
| Properties.UnrecognizedIsInvalid | ColorSeq/Color.cs:214-217 | a specifier that is neither a triplet, a number, a name nor `#`-prefixed is rejected as invalid |
| Properties.TripletDigitFields | ColorSeq/Color.cs:108-140 | any three digit fields, leading zeros included, resolve to the 24-bit color of their filtered values |
| Properties.TripletResolvesFields | ColorSeq/Color.cs:108-140 | `r;g;b` resolves to the 24-bit color of the filtered numbers r, g and b |
| Properties.TripletWithoutTransform | ColorSeq/Color.cs:128-140 | without transformation, `r;g;b` gives channels r, g and b, the plain sequence `r;g;b`, the `ESC[38;2;…m` and `ESC[48;2;…m` sequences, the true-color type and the matching Hex |
| Properties.TrueColorSequenceShape | ColorSeq/Color.cs:131-132 | the 24-bit sequences are `ESC[38;2;…m` and `ESC[48;2;…m` |
| Properties.TripletWithTransform | ColorSeq/Color.cs:115-126 | with transformation, the triplet's numbers go to the selected simulation; its result gives the color and its failure is the error |
| Properties.TripletRangeCheckedOnlyByTransform | ColorSeq/Color.cs:112-114 | `300;0;0` is accepted with R = 300 when transformation is off, and with Brettel selected it is rejected only by the simulation's red check |
| Properties.HexWithoutTransform | ColorSeq/Color.cs:181-213 | without transformation, `#` and hex digits give bits 16-23, 8-15 and 0-7 as R, G and B, as a true color showing `r;g;b` |
| Properties.HexWithTransform | ColorSeq/Color.cs:181-212 | with transformation, `#` and hex digits give the 24-bit color of the selected simulation applied to bits 16-23, 8-15 and 0-7, or the simulation's failure |
| Properties.HexSpecifierResolves | ColorSeq/Color.cs:181-188 | in a palette whose names are identifiers, `#` followed by hex digits of any length takes the hex branch with those digits |
| Properties.HexRoundTrip | ColorSeq/Color.cs:181-220 | in a palette whose names are identifiers, the Hex text of any three channels, used as a specifier, resolves to the same result as Color(R, G, B) of those channels |
| Properties.HexDigitsResolve | ColorSeq/Color.cs:183-213 | the six X2 digits of three bytes resolve on the hex branch as those bytes do through Color(R, G, B) |
| Properties.IndexedWithoutTransform | ColorSeq/Color.cs:306-320 | without transformation, slot n shows `n` in `ESC[38;5;nm` and `ESC[48;5;nm`, is a 16-color iff n < 16 and a 255-color iff n >= 16, and takes channels, brightness and Hex from the palette |
| Properties.NumberOutsidePalette | ColorSeq/Color.cs:288 | numbers outside 0-255 are rejected as unknown colors |
| Properties.NumberTextMatchesNumber | ColorSeq/Color.cs:147-180 | a number written as a specifier resolves as Color(int) of that number |
| Properties.NameMatchesSlot | ColorSeq/Color.cs:147-150 | in a palette whose names are identifiers, a ConsoleColors name resolves as the slot it names |
| Properties.RgbChecksChannelsFirst | ColorSeq/Color.cs:232-237 | each channel error occurs iff that channel is the first out of range, whatever the configuration; without transformation the channels in range give their 24-bit color; every color produced is a true color showing `r;g;b` |
| Properties.TransformForcesTrueColor | ColorSeq/Color.cs:168-176 | with transformation, every constructor produces a true color shown as `r;g;b` in `;2;` sequences; its channels lie in [0, 255] because the simulations are assumed to return channels (see Left out) |
| Properties.TransformedIndex | ColorSeq/Color.cs:294-314 | with transformation, a palette color is a true color shown in `;2;` form, with channels in range by the simulations' assumed result type |
| Properties.TransformedSpecifier | ColorSeq/Color.cs:115-212 | with transformation, every branch of Color(string) produces a true color shown in `;2;` form, with channels in range by the simulations' assumed result type |
| Properties.FilteredIsTransformed | ColorSeq/Color.cs:115-126 | a successful filter gives a `;2;` true color of the simulation's channels, which lie in [0, 255] by the simulations' assumed result type |
| Properties.IndexedWithTransform | ColorSeq/Color.cs:294-314 | with transformation, Color(n) is the 24-bit color of the simulated slot channels, or the simulation's failure |
| Properties.RgbWithTransform | ColorSeq/Color.cs:243-266 | with transformation, Color(R, G, B) of accepted channels is the 24-bit color of the simulated channels, or the simulation's failure |
| Properties.SimpleAlgorithmIffFlag | ColorSeq/Color.cs:119-122 | the simple simulation decides the result when EnableSimpleColorTransformation is set and the Brettel simulation decides it otherwise; the other one never matters |
| Properties.DisabledIgnoresSimulation | ColorSeq/Color.cs:115 | with transformation off, neither the simulations nor the deficiency settings affect the result |
| Properties.PlainSequenceReparses | ColorSeq/Color.cs:128-180 | the plain sequence of a color from a specifier, used as a specifier with transformation off, gives back the same color |
| Properties.PlainSequenceReparsesNumeric | ColorSeq/Color.cs:255-309 | the same round trip holds for colors from Color(R, G, B) and Color(int) |
| Properties.BrightnessThreshold | ColorSeq/Color.cs:136-137 | with integer channels, a color is bright iff r + g + b >= 127 and dark iff r + g + b <= 126, so exactly one of the two holds |
| Properties.TripletExampleText | ColorSeq.Tests/ColorInitializationTests.cs:107-116 | 94, 0, 63 render as `94;0;63` and `#5E003F` |
| Properties.TripletExample | ColorSeq.Tests/ColorInitializationTests.cs:98-116 | `94;0;63` gives every field the test expects |
| Properties.TripletExampleValue | ColorSeq.Tests/ColorInitializationTests.cs:107-116 | the 24-bit color of 94, 0, 63 has exactly the fields the test expects, bright and not dark |
| Properties.HexExampleText | ColorSeq.Tests/ColorInitializationTests.cs:136-145 | 15, 15, 15 render as `15;15;15` and `#0F0F0F` |
| Properties.HexExample | ColorSeq.Tests/ColorInitializationTests.cs:127-145 | `#0F0F0F` gives every field the test expects |
| Properties.HexExampleValue | ColorSeq.Tests/ColorInitializationTests.cs:136-145 | the 24-bit color of 15, 15, 15 has exactly the fields the test expects, dark and not bright |
| Properties.Palette255Example | ColorSeq.Tests/ColorInitializationTests.cs:40-58 | given the slot-18 data, Color(18) gives every field the test expects, including type 255-color and Hex `#000087` |
| Properties.Palette16Example | ColorSeq.Tests/ColorInitializationTests.cs:69-87 | given the slot-13 data, Color(13) gives every field the test expects, including type 16-color, bright and not dark, and Hex `#FF00FF` |

## Left out

- ValidPalette: the ConsoleColors names are assumed to be ASCII identifiers (a letter or `_`, then letters, digits and `_`). The lemmas about names and about `#` text take it as a precondition; the enumeration itself is not part of this model.
- The color data is not modelled. The JSON behind `ConsoleColorsInfo`, the ConsoleColors enumeration and its names are a `Palette` parameter. The palette scenarios take their slot's channels and brightness as a precondition.
- The model assumes `ConsoleColorsInfo.ColorID` is the slot number it was built from.
- `Vienot1999.Transform` is not modelled; it is an opaque `Simulator`. `ColorTools.SRGBToLinearRGB` and `ColorTools.LinearRGBTosRGB` are opaque `Gamma` functions.
- Numeric results of the simulations are not derived, because they depend on the gamma curves.
- Both simulations, and `ColorTools.LinearRGBTosRGB` inside Brettel, are assumed to return channels in [0, 255]: `Simulator` and `Gamma.toSrgb` return `Channel` values. The in-range channels of transformed colors rest on that assumption, not on a proof; Vienot1999 and the gamma code are not part of this model.
- Real arithmetic stands in for `double`. Rounding in the brightness sum and in the simulations is not modelled. The brightness sum of integer channels never lands on 127.5, so the flags are unaffected.
- `PlainSequenceEnclosed` is not modelled. It is the plain sequence wrapped by the external `EncloseByDoubleQuotes` helper.
- `Color255.Initialize255` and the Windows console calls are not modelled; they are console I/O.
- The `ColorTools` switches are a `Config` parameter rather than mutable globals read mid-construction. Concurrent changes to them are therefore not modelled.
- Text.ParseInt32: `Convert.ToInt32` also accepts surrounding white space and a sign, and those are not modelled. A signed or padded triplet field is a bad number in the model. The source would go on to use a negative channel, which needs signed decimal and 32-bit X2 rendering.
- Text.ParseHex: `Convert.ToInt32(s, 16)` also accepts a `0x` prefix, and that is not modelled; such text is a bad number in the model.
- Resolution.ResolvePaletteText: only plain digit strings reach the palette branch as numbers. `double.TryParse` also accepts blanks around the number, a sign, a decimal point, an exponent and culture-specific forms, so the source enters the palette branch with all of them. For a whole number with surrounding blanks or a leading sign (`" 18"`, `"18 "`, `"+18"`), `Enum.Parse` trims the blanks and reads the sign, and the source yields that slot; the model rejects such text as `InvalidSpecifier`. Decimal-point, exponent and culture-specific forms fail inside `Enum.Parse` in the source, while the model rejects them as `InvalidSpecifier`.
- Resolution.ResolveNumber: numbers outside 0-255 are rejected with `UnknownColor`. In the source, `Enum.Parse` yields an undefined enumeration value, and the failure comes from the color-data lookup that `ConsoleColorsInfo` does, which is not part of this model.
- Which exception class is thrown, and its message text, are not modelled. Each failure is a distinct `Error` constructor instead.
