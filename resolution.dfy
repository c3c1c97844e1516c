/**
  What a Color constructor computes, as functions of the specifier, the
  library configuration, the palette and the two simulations. The class in
  module ColorSeq builds its objects step by step and is proved to agree with
  these functions.
 */
module Resolution {
  import opened Wrappers
  import opened Text
  import opened Accessibility

  /** The source's ColorType: _16Color, _255Color and TrueColor. */
  datatype ColorType = Color16 | Color255 | TrueColor

  /**
    The library-wide switches read by every constructor: EnableColorTransformation,
    EnableSimpleColorTransformation, ColorDeficiency and ColorDeficiencySeverity.
   */
  datatype Config = Config(
    enableColorTransformation: bool,
    enableSimpleColorTransformation: bool,
    colorDeficiency: Deficiency,
    colorDeficiencySeverity: real)

  /** A palette slot, and a value of the ConsoleColors enumeration. */
  type PaletteId = i: int | 0 <= i <= 255

  /** What ConsoleColorsInfo reports for a palette slot. */
  datatype PaletteEntry = PaletteEntry(r: Channel, g: Channel, b: Channel, isBright: bool, isDark: bool)

  /**
    The palette data: the entry of each slot, and the slot a ConsoleColors
    name stands for (None for a string that is not a defined name).
   */
  datatype Palette = Palette(lookup: PaletteId -> PaletteEntry, byName: string -> Option<PaletteId>)

  predicate IsIdentifierStart(c: char) {
    'A' <= c <= 'Z' || 'a' <= c <= 'z' || c == '_'
  }

  predicate IsIdentifierPart(c: char) {
    IsIdentifierStart(c) || IsDigit(c)
  }

  /** A C# identifier over ASCII: a letter or `_`, then letters, digits and `_`. */
  predicate IsIdentifier(s: string) {
    |s| > 0 && IsIdentifierStart(s[0]) && forall i :: 1 <= i < |s| ==> IsIdentifierPart(s[i])
  }

  /**
    The names Enum.IsDefined accepts for ConsoleColors are the enumeration's
    member names, which are identifiers.
   */
  ghost predicate ValidPalette(pal: Palette) {
    forall s :: pal.byName(s).Some? ==> IsIdentifier(s)
  }

  /** The two simulations: Brettel1997.Transform and Vienot1999.Transform. */
  datatype Transforms = Transforms(brettel: Simulator, vienot: Simulator)

  /** Why a constructor throws. */
  datatype Error =
    | InvalidSpecifier               // ColorSeqException: "Invalid color specifier..."
    | InvalidRed                     // ColorSeqException: "Invalid red color specifier."
    | InvalidGreen                   // ColorSeqException: "Invalid green color specifier."
    | InvalidBlue                    // ColorSeqException: "Invalid blue color specifier."
    | BadNumber                      // Convert.ToInt32 rejects a field or the hex digits
    | UnknownColor                   // the number or name is not a palette slot
    | TransformFailed(reason: TransformError)

  /** The observable fields of a constructed Color. */
  datatype ColorValue = ColorValue(
    r: nat,
    g: nat,
    b: nat,
    plainSequence: string,
    vtSequenceForeground: string,
    vtSequenceBackground: string,
    colorType: ColorType,
    isBright: bool,
    isDark: bool,
    hex: string)

  // ---------------------------------------------------------------------
  // Field derivations
  // ---------------------------------------------------------------------

  /** The escape character (Color255.GetEsc). */
  const ESC: char := '\U{1B}'

  /** SGR parameter selecting the foreground, and the background. */
  const FOREGROUND: string := "38"
  const BACKGROUND: string := "48"

  /** `$"{r};{g};{b}"`. */
  function TripletText(r: nat, g: nat, b: nat): string {
    Decimal(r) + ";" + Decimal(g) + ";" + Decimal(b)
  }

  /** The 24-bit form `ESC [ layer ; 2 ; plain m`. */
  function TrueColorSequence(layer: string, plain: string): string {
    [ESC] + "[" + layer + ";2;" + plain + "m"
  }

  /** The 256-color form `ESC [ layer ; 5 ; plain m`. */
  function IndexedSequence(layer: string, plain: string): string {
    [ESC] + "[" + layer + ";5;" + plain + "m"
  }

  /** `$"#{R:X2}{G:X2}{B:X2}"`. */
  function HexOf(r: nat, g: nat, b: nat): string {
    "#" + X2(r) + X2(g) + X2(b)
  }

  /**
    The source's brightness test, with the luminance coefficients added to the
    channels rather than multiplied with them.
   */
  predicate ComputedIsBright(r: int, g: int, b: int) {
    r as real + 0.2126 + g as real + 0.7152 + b as real + 0.0722 > 255.0 / 2.0
  }

  predicate ComputedIsDark(r: int, g: int, b: int) {
    r as real + 0.2126 + g as real + 0.7152 + b as real + 0.0722 < 255.0 / 2.0
  }

  /** The palette space of an untransformed slot. */
  function IndexedType(id: PaletteId): ColorType {
    if id >= 16 then Color255 else Color16
  }

  /** The fields of a color shown as 24-bit R;G;B. */
  function TrueColorValue(r: nat, g: nat, b: nat): ColorValue {
    var plain := TripletText(r, g, b);
    ColorValue(r, g, b, plain,
      TrueColorSequence(FOREGROUND, plain), TrueColorSequence(BACKGROUND, plain),
      TrueColor, ComputedIsBright(r, g, b), ComputedIsDark(r, g, b), HexOf(r, g, b))
  }

  /** The fields of an untransformed palette slot. */
  function IndexedValue(id: PaletteId, e: PaletteEntry): ColorValue {
    var plain := Decimal(id);
    ColorValue(e.r, e.g, e.b, plain,
      IndexedSequence(FOREGROUND, plain), IndexedSequence(BACKGROUND, plain),
      IndexedType(id), e.isBright, e.isDark, HexOf(e.r, e.g, e.b))
  }

  // ---------------------------------------------------------------------
  // Bit fields of a parsed hex number
  // ---------------------------------------------------------------------

  /**
    Bits 16-23 of a non-negative number: `(byte)((n & 0xFF0000) >> 0x10)`.
    The lemma MaskShiftIsDivMod below justifies the division form.
   */
  function RedBits(n: nat): (v: nat)
    ensures v < 256
  {
    n / 0x1_0000 % 0x100
  }

  /** Bits 8-15: `(byte)((n & 0xFF00) >> 8)`. */
  function GreenBits(n: nat): (v: nat)
    ensures v < 256
  {
    n / 0x100 % 0x100
  }

  /** Bits 0-7: `(byte)(n & 0xFF)`. */
  function BlueBits(n: nat): (v: nat)
    ensures v < 256
  {
    n % 0x100
  }

  /** On 32-bit words, masking and shifting right select the same bits as dividing and taking the remainder. */
  lemma MaskShiftIsDivMod(x: bv32)
    ensures ((x & 0xFF_0000) >> 0x10) & 0xFF == (x / 0x1_0000) % 0x100
    ensures ((x & 0xFF00) >> 8) & 0xFF == (x / 0x100) % 0x100
    ensures (x & 0xFF) & 0xFF == x % 0x100
  {
  }

  // ---------------------------------------------------------------------
  // Transformation
  // ---------------------------------------------------------------------

  /** Channels on their way to the final color. */
  datatype Channels = Channels(r: nat, g: nat, b: nat)

  /**
    The simulation the configuration selects, applied to the channels: the
    simple one when EnableSimpleColorTransformation is set, else the two-plane one.
   */
  function Simulate(c: Channels, cfg: Config, tf: Transforms): Result<Rgb, TransformError> {
    if cfg.enableSimpleColorTransformation then
      tf.vienot(c.r, c.g, c.b, cfg.colorDeficiency, cfg.colorDeficiencySeverity)
    else
      tf.brettel(c.r, c.g, c.b, cfg.colorDeficiency, cfg.colorDeficiencySeverity)
  }

  /**
    The channels after the optional color-blindness filter: unchanged when
    transformation is disabled, else replaced by the selected simulation's result.
   */
  function Filter(c: Channels, cfg: Config, tf: Transforms): Result<Channels, Error> {
    if !cfg.enableColorTransformation then Ok(c)
    else
      match Simulate(c, cfg, tf)
      case Ok(t) => Ok(Channels(t.r, t.g, t.b))
      case Err(e) => Err(TransformFailed(e))
  }

  // ---------------------------------------------------------------------
  // The constructors
  // ---------------------------------------------------------------------

  /** Color(int ColorNum) for a palette slot. */
  function ResolveIndex(id: PaletteId, cfg: Config, pal: Palette, tf: Transforms): Result<ColorValue, Error> {
    var e := pal.lookup(id);
    var c :- Filter(Channels(e.r, e.g, e.b), cfg, tf);
    if cfg.enableColorTransformation then Ok(TrueColorValue(c.r, c.g, c.b))
    else Ok(IndexedValue(id, e))
  }

  /** Color(int ColorNum): numbers outside the palette are not colors. */
  function ResolveNumber(n: int, cfg: Config, pal: Palette, tf: Transforms): Result<ColorValue, Error> {
    if 0 <= n <= 255 then ResolveIndex(n, cfg, pal, tf) else Err(UnknownColor)
  }

  /** Color(int R, int G, int B): channels are checked, in order, before any transform. */
  function ResolveRgb(r: int, g: int, b: int, cfg: Config, pal: Palette, tf: Transforms): Result<ColorValue, Error> {
    if r < 0 || r > 255 then Err(InvalidRed)
    else if g < 0 || g > 255 then Err(InvalidGreen)
    else if b < 0 || b > 255 then Err(InvalidBlue)
    else
      var c :- Filter(Channels(r, g, b), cfg, tf);
      Ok(TrueColorValue(c.r, c.g, c.b))
  }

  /** The `R;G;B` branch of Color(string), given the fields between the `;`s. */
  function ResolveTriplet(fields: seq<string>, cfg: Config, tf: Transforms): Result<ColorValue, Error> {
    if |fields| != 3 then Err(InvalidSpecifier)
    else
      match (ParseInt32(fields[0]), ParseInt32(fields[1]), ParseInt32(fields[2]))
      case (Some(r), Some(g), Some(b)) =>
        var c :- Filter(Channels(r, g, b), cfg, tf);
        Ok(TrueColorValue(c.r, c.g, c.b))
      case _ => Err(BadNumber)
  }

  /** The number-or-name branch of Color(string). */
  function ResolvePaletteText(s: string, cfg: Config, pal: Palette, tf: Transforms): Result<ColorValue, Error>
    requires IsDigits(s) || pal.byName(s).Some?
  {
    var id: nat := if IsDigits(s) then DigitsValue(s) else pal.byName(s).value;
    if id <= 255 then ResolveIndex(id, cfg, pal, tf) else Err(UnknownColor)
  }

  /** The `#` branch of Color(string), given the text after the `#`. */
  function ResolveHex(digits: string, cfg: Config, tf: Transforms): Result<ColorValue, Error> {
    match ParseHex(digits)
    case None => Err(BadNumber)
    case Some(n) =>
      var c :- Filter(Channels(RedBits(n), GreenBits(n), BlueBits(n)), cfg, tf);
      Ok(TrueColorValue(c.r, c.g, c.b))
  }

  /**
    Color(string): quotes are removed first; then a `;` selects the triplet
    branch, a number or a ConsoleColors name the palette branch, and a leading
    `#` the hex branch, in that order.
   */
  function ResolveSpecifier(spec: string, cfg: Config, pal: Palette, tf: Transforms): Result<ColorValue, Error> {
    ResolveUnquoted(RemoveQuotes(spec), cfg, pal, tf)
  }

  /** The branch chain of Color(string), applied to the quote-free specifier. */
  function ResolveUnquoted(s: string, cfg: Config, pal: Palette, tf: Transforms): Result<ColorValue, Error> {
    if ';' in s then ResolveTriplet(Split(s, ';'), cfg, tf)
    else if IsDigits(s) || pal.byName(s).Some? then ResolvePaletteText(s, cfg, pal, tf)
    else if |s| > 0 && s[0] == '#' then ResolveHex(s[1..], cfg, tf)
    else Err(InvalidSpecifier)
  }
}
