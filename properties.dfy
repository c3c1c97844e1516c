/**
  Properties of the color constructors: branch selection, the output of each
  branch with and without transformation, the invariant tying every field to
  the channels, round trips through the plain sequence and the hex text, and
  the brightness rule.
 */
module Properties {
  import opened Wrappers
  import opened Text
  import opened Accessibility
  import opened Resolution

  // ---------------------------------------------------------------------
  // The invariant every constructed color satisfies
  // ---------------------------------------------------------------------

  /**
    A consistent set of fields: Hex always spells the channels; a 24-bit color
    shows its channels as `r;g;b` in the `;2;` sequences and has computed
    brightness; a palette color shows a slot number in the `;5;` sequences and
    its type follows the slot number.
   */
  predicate WellFormed(v: ColorValue) {
    && v.hex == HexOf(v.r, v.g, v.b)
    && if v.colorType == TrueColor then
         && v.plainSequence == TripletText(v.r, v.g, v.b)
         && v.vtSequenceForeground == TrueColorSequence(FOREGROUND, v.plainSequence)
         && v.vtSequenceBackground == TrueColorSequence(BACKGROUND, v.plainSequence)
         && v.isBright == ComputedIsBright(v.r, v.g, v.b)
         && v.isDark == ComputedIsDark(v.r, v.g, v.b)
       else
         && IsDigits(v.plainSequence)
         && DigitsValue(v.plainSequence) <= 255
         && v.colorType == IndexedType(DigitsValue(v.plainSequence))
         && v.vtSequenceForeground == IndexedSequence(FOREGROUND, v.plainSequence)
         && v.vtSequenceBackground == IndexedSequence(BACKGROUND, v.plainSequence)
         && v.r <= 255 && v.g <= 255 && v.b <= 255
  }

  lemma TrueColorValueWellFormed(r: nat, g: nat, b: nat)
    ensures WellFormed(TrueColorValue(r, g, b))
  {
  }

  lemma IndexedValueWellFormed(id: PaletteId, e: PaletteEntry)
    ensures WellFormed(IndexedValue(id, e))
  {
    DigitsValueDecimal(id);
  }

  lemma ResolveIndexWellFormed(id: PaletteId, cfg: Config, pal: Palette, tf: Transforms)
    ensures ResolveIndex(id, cfg, pal, tf).Ok? ==> WellFormed(ResolveIndex(id, cfg, pal, tf).value)
  {
    IndexedValueWellFormed(id, pal.lookup(id));
  }

  /** Every color any constructor produces is well formed. */
  lemma ResolvedColorsAreWellFormed(spec: string, red: int, green: int, blue: int, n: int,
                                    cfg: Config, pal: Palette, tf: Transforms)
    ensures ResolveSpecifier(spec, cfg, pal, tf).Ok? ==> WellFormed(ResolveSpecifier(spec, cfg, pal, tf).value)
    ensures ResolveRgb(red, green, blue, cfg, pal, tf).Ok? ==> WellFormed(ResolveRgb(red, green, blue, cfg, pal, tf).value)
    ensures ResolveNumber(n, cfg, pal, tf).Ok? ==> WellFormed(ResolveNumber(n, cfg, pal, tf).value)
  {
    if 0 <= n <= 255 {
      ResolveIndexWellFormed(n, cfg, pal, tf);
    }
    var s := RemoveQuotes(spec);
    if ';' !in s && (IsDigits(s) || pal.byName(s).Some?) {
      var id: nat := if IsDigits(s) then DigitsValue(s) else pal.byName(s).value;
      if id <= 255 {
        ResolveIndexWellFormed(id, cfg, pal, tf);
      }
    }
  }

  // ---------------------------------------------------------------------
  // Text facts used below
  // ---------------------------------------------------------------------

  lemma DecimalPlain(n: nat)
    ensures '"' !in Decimal(n) && ';' !in Decimal(n)
  {
    var s := Decimal(n);
    assert forall i :: 0 <= i < |s| ==> IsDigit(s[i]);
  }

  lemma TripletTextShape(r: nat, g: nat, b: nat)
    ensures '"' !in TripletText(r, g, b) && ';' in TripletText(r, g, b)
    ensures Split(TripletText(r, g, b), ';') == [Decimal(r), Decimal(g), Decimal(b)]
  {
    DecimalPlain(r);
    DecimalPlain(g);
    DecimalPlain(b);
    var s := TripletText(r, g, b);
    assert s[|Decimal(r)|] == ';';
    SplitThree(Decimal(r), Decimal(g), Decimal(b), ';');
  }

  /** Bits 16-23, 8-15 and 0-7 of a packed 24-bit number are its three bytes. */
  lemma BitsOfBytes(r: nat, g: nat, b: nat)
    requires r < 256 && g < 256 && b < 256
    ensures var n := r * 0x1_0000 + g * 0x100 + b;
      RedBits(n) == r && GreenBits(n) == g && BlueBits(n) == b
  {
  }

  /** `#` followed by hex digits has no quote or `;` and is not a number. */
  lemma HashTextShape(digits: string)
    requires forall i :: 0 <= i < |digits| ==> IsHexDigit(digits[i])
    ensures var s := "#" + digits;
      '"' !in s && ';' !in s && !IsDigits(s) && s[1..] == digits
  {
    var s := "#" + digits;
    assert forall i :: 1 <= i < |s| ==> s[i] == digits[i - 1];
    assert !IsDigit(s[0]);
  }

  /** An identifier holds no quote or `;`, is not a number and does not start with `#`. */
  lemma IdentifierShape(s: string)
    requires IsIdentifier(s)
    ensures '"' !in s && ';' !in s && !IsDigits(s) && s[0] != '#'
  {
    assert !IsDigit(s[0]);
    forall i | 0 <= i < |s|
      ensures s[i] != '"' && s[i] != ';'
    {
      if i > 0 {
        assert IsIdentifierPart(s[i]);
      }
    }
  }

  /** In a valid palette, text starting with `#` is never a name. */
  lemma HashIsNoName(pal: Palette, digits: string)
    requires ValidPalette(pal)
    ensures pal.byName("#" + digits).None?
  {
    var s := "#" + digits;
    assert !IsIdentifier(s) by {
      assert s[0] == '#';
    }
  }

  // ---------------------------------------------------------------------
  // Quotes and branch selection
  // ---------------------------------------------------------------------

  /** Every double quote is removed before a branch is chosen, wherever it stands. */
  lemma QuotesAreIgnored(a: string, b: string, cfg: Config, pal: Palette, tf: Transforms)
    ensures ResolveSpecifier(a + "\"" + b, cfg, pal, tf) == ResolveSpecifier(a + b, cfg, pal, tf)
    ensures ResolveSpecifier(RemoveQuotes(a), cfg, pal, tf) == ResolveSpecifier(a, cfg, pal, tf)
  {
    RemoveQuotesAppend(a + "\"", b);
    RemoveQuotesAppend(a, "\"");
    RemoveQuotesAppend(a, b);
    assert RemoveQuotes("\"") == RemoveQuotes("") == "";
    assert RemoveQuotes(a + "\"") == RemoveQuotes(a);
    assert RemoveQuotes(a + "\"" + b) == RemoveQuotes(a + b);
    RemoveQuotesIdempotent(a);
  }

  /**
    A specifier with a `;` always takes the triplet branch: it is rejected as
    an invalid specifier exactly when it does not split into three fields, and
    any color it yields is a 24-bit color.
   */
  lemma SemicolonSelectsTriplet(spec: string, cfg: Config, pal: Palette, tf: Transforms)
    requires ';' in RemoveQuotes(spec)
    ensures ResolveSpecifier(spec, cfg, pal, tf) == Err(InvalidSpecifier) <==>
      |Split(RemoveQuotes(spec), ';')| != 3
    ensures ResolveSpecifier(spec, cfg, pal, tf).Ok? ==>
      ResolveSpecifier(spec, cfg, pal, tf).value.colorType == TrueColor
  {
  }

  /** Anything that is neither a triplet, a number, a palette name nor `#`-prefixed is rejected. */
  lemma UnrecognizedIsInvalid(spec: string, cfg: Config, pal: Palette, tf: Transforms)
    requires var s := RemoveQuotes(spec);
      ';' !in s && !IsDigits(s) && pal.byName(s).None? && (|s| == 0 || s[0] != '#')
    ensures ResolveSpecifier(spec, cfg, pal, tf) == Err(InvalidSpecifier)
  {
  }

  // ---------------------------------------------------------------------
  // The triplet branch
  // ---------------------------------------------------------------------

  /**
    Any three digit fields, leading zeros included, are read as their values
    and give the 24-bit color of the filtered values.
   */
  lemma TripletDigitFields(a: string, b: string, c: string, cfg: Config, pal: Palette, tf: Transforms)
    requires IsDigits(a) && IsDigits(b) && IsDigits(c)
    requires DigitsValue(a) <= INT32_MAX && DigitsValue(b) <= INT32_MAX && DigitsValue(c) <= INT32_MAX
    ensures ResolveSpecifier(a + ";" + b + ";" + c, cfg, pal, tf) ==
      (var ch :- Filter(Channels(DigitsValue(a), DigitsValue(b), DigitsValue(c)), cfg, tf);
       Ok(TrueColorValue(ch.r, ch.g, ch.b)))
  {
    DigitsPlain(a);
    DigitsPlain(b);
    DigitsPlain(c);
    var s := a + ";" + b + ";" + c;
    assert s[|a|] == ';';
    assert '"' !in s by {
      forall i | 0 <= i < |s| ensures s[i] != '"' {
        if i < |a| { assert s[i] == a[i]; }
        else if i == |a| { }
        else if i <= |a| + |b| { assert s[i] == b[i - |a| - 1]; }
        else if i == |a| + |b| + 1 { }
        else { assert s[i] == c[i - |a| - |b| - 2]; }
      }
    }
    RemoveQuotesNoQuotes(s);
    SplitThree(a, b, c, ';');
    assert ResolveSpecifier(s, cfg, pal, tf) == ResolveTriplet([a, b, c], cfg, tf);
  }

  lemma DigitsPlain(s: string)
    requires IsDigits(s)
    ensures '"' !in s && ';' !in s
  {
    assert forall i :: 0 <= i < |s| ==> IsDigit(s[i]);
  }

  /** `r;g;b` is resolved from its three fields, read back as the numbers. */
  lemma TripletResolvesFields(r: nat, g: nat, b: nat, cfg: Config, pal: Palette, tf: Transforms)
    requires r <= INT32_MAX && g <= INT32_MAX && b <= INT32_MAX
    ensures ResolveSpecifier(TripletText(r, g, b), cfg, pal, tf) ==
      (var c :- Filter(Channels(r, g, b), cfg, tf); Ok(TrueColorValue(c.r, c.g, c.b)))
  {
    var s := TripletText(r, g, b);
    TripletTextShape(r, g, b);
    RemoveQuotesNoQuotes(s);
    assert ResolveSpecifier(s, cfg, pal, tf) == ResolveTriplet(Split(s, ';'), cfg, tf);
    var fields := [Decimal(r), Decimal(g), Decimal(b)];
    ParseInt32Decimal(r);
    ParseInt32Decimal(g);
    ParseInt32Decimal(b);
    assert (ParseInt32(fields[0]), ParseInt32(fields[1]), ParseInt32(fields[2])) == (Some(r), Some(g), Some(b));
  }

  /**
    Without transformation, `r;g;b` yields exactly those channels, the plain
    sequence `r;g;b`, the `;2;` sequences and the 24-bit type.
   */
  lemma TripletWithoutTransform(r: nat, g: nat, b: nat, cfg: Config, pal: Palette, tf: Transforms)
    requires r <= INT32_MAX && g <= INT32_MAX && b <= INT32_MAX
    requires !cfg.enableColorTransformation
    ensures var res := ResolveSpecifier(TripletText(r, g, b), cfg, pal, tf);
      && res.Ok?
      && res.value.r == r && res.value.g == g && res.value.b == b
      && res.value.plainSequence == TripletText(r, g, b)
      && res.value.vtSequenceForeground == [ESC] + "[38;2;" + TripletText(r, g, b) + "m"
      && res.value.vtSequenceBackground == [ESC] + "[48;2;" + TripletText(r, g, b) + "m"
      && res.value.colorType == TrueColor
      && res.value.hex == HexOf(r, g, b)
    ensures ResolveSpecifier(TripletText(r, g, b), cfg, pal, tf) == Ok(TrueColorValue(r, g, b))
  {
    TripletResolvesFields(r, g, b, cfg, pal, tf);
    assert Filter(Channels(r, g, b), cfg, tf) == Ok(Channels(r, g, b));
    TrueColorSequenceShape(TripletText(r, g, b));
  }

  /** The 24-bit sequences spelled out for both layers. */
  lemma TrueColorSequenceShape(plain: string)
    ensures TrueColorSequence(FOREGROUND, plain) == [ESC] + "[38;2;" + plain + "m"
    ensures TrueColorSequence(BACKGROUND, plain) == [ESC] + "[48;2;" + plain + "m"
  {
    assert [ESC] + "[" + FOREGROUND + ";2;" == [ESC] + "[38;2;";
    assert [ESC] + "[" + BACKGROUND + ";2;" == [ESC] + "[48;2;";
  }

  /**
    With transformation, the three parsed fields go to the selected simulation
    and the color is built from its result; a simulation failure is the error.
   */
  lemma TripletWithTransform(r: nat, g: nat, b: nat, cfg: Config, pal: Palette, tf: Transforms)
    requires r <= INT32_MAX && g <= INT32_MAX && b <= INT32_MAX
    requires cfg.enableColorTransformation
    ensures ResolveSpecifier(TripletText(r, g, b), cfg, pal, tf) ==
        match Simulate(Channels(r, g, b), cfg, tf)
        case Ok(t) => Ok(TrueColorValue(t.r, t.g, t.b))
        case Err(e) => Err(TransformFailed(e))
  {
    TripletResolvesFields(r, g, b, cfg, pal, tf);
  }

  /**
    The triplet branch does not range-check its fields: with the two-plane
    simulation selected, an out-of-range field is rejected only by the
    simulation's own argument check.
   */
  lemma TripletRangeCheckedOnlyByTransform(gamma: Gamma, cfg: Config, pal: Palette, tf: Transforms)
    requires cfg.enableColorTransformation && !cfg.enableSimpleColorTransformation
    requires tf.brettel == Brettel(gamma)
    ensures ResolveSpecifier("300;0;0", cfg, pal, tf) == Err(TransformFailed(OutOfRange(Red)))
    ensures ResolveSpecifier("300;0;0", cfg.(enableColorTransformation := false), pal, tf).Ok?
    ensures ResolveSpecifier("300;0;0", cfg.(enableColorTransformation := false), pal, tf).value.r == 300
  {
    assert TripletText(300, 0, 0) == "300;0;0";
    TripletWithTransform(300, 0, 0, cfg, pal, tf);
    TripletWithoutTransform(300, 0, 0, cfg.(enableColorTransformation := false), pal, tf);
  }

  // ---------------------------------------------------------------------
  // The hex branch
  // ---------------------------------------------------------------------

  /**
    `#` followed by hex digits yields bits 16-23, 8-15 and 0-7 of the number
    as R, G and B, shown as a 24-bit color.
   */
  lemma HexWithoutTransform(digits: string, cfg: Config, pal: Palette, tf: Transforms)
    requires ParseHex(digits).Some?
    requires ValidPalette(pal)
    requires !cfg.enableColorTransformation
    ensures var n := ParseHex(digits).value;
      var res := ResolveSpecifier("#" + digits, cfg, pal, tf);
      && res.Ok?
      && res.value.r == n / 0x1_0000 % 0x100
      && res.value.g == n / 0x100 % 0x100
      && res.value.b == n % 0x100
      && res.value.plainSequence == TripletText(res.value.r, res.value.g, res.value.b)
      && res.value.colorType == TrueColor
  {
    HexSpecifierResolves(digits, cfg, pal, tf);
  }

  /**
    With transformation, the bit fields of the number go to the selected
    simulation and the color is built from its result; a simulation failure
    is the error.
   */
  lemma HexWithTransform(digits: string, cfg: Config, pal: Palette, tf: Transforms)
    requires ParseHex(digits).Some?
    requires ValidPalette(pal)
    requires cfg.enableColorTransformation
    ensures var n := ParseHex(digits).value;
      ResolveSpecifier("#" + digits, cfg, pal, tf) ==
        match Simulate(Channels(RedBits(n), GreenBits(n), BlueBits(n)), cfg, tf)
        case Ok(t) => Ok(TrueColorValue(t.r, t.g, t.b))
        case Err(e) => Err(TransformFailed(e))
  {
    HexSpecifierResolves(digits, cfg, pal, tf);
  }

  /**
    `#` followed by hex digits of any number takes the hex branch, in a palette
    whose names are identifiers: the digits are parsed, or rejected as a bad
    number when they are missing or overflow 32 bits.
   */
  lemma HexSpecifierResolves(digits: string, cfg: Config, pal: Palette, tf: Transforms)
    requires forall i :: 0 <= i < |digits| ==> IsHexDigit(digits[i])
    requires ValidPalette(pal)
    ensures ResolveSpecifier("#" + digits, cfg, pal, tf) == ResolveHex(digits, cfg, tf)
  {
    var s := "#" + digits;
    HashTextShape(digits);
    HashIsNoName(pal, digits);
    RemoveQuotesNoQuotes(s);
  }

  /** The Hex text of any three channels resolves back to the color made from those channels. */
  lemma HexRoundTrip(r: Channel, g: Channel, b: Channel, cfg: Config, pal: Palette, tf: Transforms)
    requires ValidPalette(pal)
    ensures ResolveSpecifier(HexOf(r, g, b), cfg, pal, tf) == ResolveRgb(r, g, b, cfg, pal, tf)
  {
    var digits := X2(r) + X2(g) + X2(b);
    assert HexOf(r, g, b) == "#" + digits;
    ParseHexBytes(r, g, b);
    HexSpecifierResolves(digits, cfg, pal, tf);
    HexDigitsResolve(r, g, b, cfg, pal, tf);
  }

  /** The six digits of three bytes resolve as Color(int R, int G, int B) of those bytes. */
  lemma HexDigitsResolve(r: Channel, g: Channel, b: Channel, cfg: Config, pal: Palette, tf: Transforms)
    ensures ResolveHex(X2(r) + X2(g) + X2(b), cfg, tf) == ResolveRgb(r, g, b, cfg, pal, tf)
  {
    ParseHexBytes(r, g, b);
    BitsOfBytes(r, g, b);
    var n := r * 0x1_0000 + g * 0x100 + b;
    assert Channels(RedBits(n), GreenBits(n), BlueBits(n)) == Channels(r, g, b);
  }

  // ---------------------------------------------------------------------
  // The palette branch
  // ---------------------------------------------------------------------

  /**
    Without transformation, a palette slot shows its number in the `;5;`
    sequences, is a 16-color exactly when the number is below 16, and takes its
    channels and brightness from the palette.
   */
  lemma IndexedWithoutTransform(id: PaletteId, cfg: Config, pal: Palette, tf: Transforms)
    requires !cfg.enableColorTransformation
    ensures var res := ResolveNumber(id, cfg, pal, tf);
      var e := pal.lookup(id);
      && res.Ok?
      && res.value.plainSequence == Decimal(id)
      && res.value.vtSequenceForeground == [ESC] + "[38;5;" + Decimal(id) + "m"
      && res.value.vtSequenceBackground == [ESC] + "[48;5;" + Decimal(id) + "m"
      && (res.value.colorType == Color16 <==> id < 16)
      && (res.value.colorType == Color255 <==> id >= 16)
      && res.value.r == e.r && res.value.g == e.g && res.value.b == e.b
      && res.value.isBright == e.isBright && res.value.isDark == e.isDark
      && res.value.hex == HexOf(e.r, e.g, e.b)
  {
  }

  /** Numbers outside the palette are rejected. */
  lemma NumberOutsidePalette(n: int, cfg: Config, pal: Palette, tf: Transforms)
    requires n < 0 || n > 255
    ensures ResolveNumber(n, cfg, pal, tf) == Err(UnknownColor)
  {
  }

  /** A number written as a specifier resolves as that number does. */
  lemma NumberTextMatchesNumber(n: nat, cfg: Config, pal: Palette, tf: Transforms)
    ensures ResolveSpecifier(Decimal(n), cfg, pal, tf) == ResolveNumber(n, cfg, pal, tf)
  {
    DecimalPlain(n);
    RemoveQuotesNoQuotes(Decimal(n));
    DigitsValueDecimal(n);
  }

  /** A ConsoleColors name resolves as the slot it stands for. */
  lemma NameMatchesSlot(name: string, cfg: Config, pal: Palette, tf: Transforms)
    requires ValidPalette(pal)
    requires pal.byName(name).Some?
    ensures ResolveSpecifier(name, cfg, pal, tf) == ResolveNumber(pal.byName(name).value, cfg, pal, tf)
  {
    IdentifierShape(name);
    RemoveQuotesNoQuotes(name);
  }

  // ---------------------------------------------------------------------
  // Color(int R, int G, int B)
  // ---------------------------------------------------------------------

  /**
    The channels are range-checked in order before any transform, so the
    configuration cannot change which channel is reported; accepted channels
    give a 24-bit color showing `r;g;b`.
   */
  lemma RgbChecksChannelsFirst(r: int, g: int, b: int, cfg: Config, pal: Palette, tf: Transforms)
    ensures ResolveRgb(r, g, b, cfg, pal, tf) == Err(InvalidRed) <==> !(0 <= r <= 255)
    ensures ResolveRgb(r, g, b, cfg, pal, tf) == Err(InvalidGreen) <==> 0 <= r <= 255 && !(0 <= g <= 255)
    ensures ResolveRgb(r, g, b, cfg, pal, tf) == Err(InvalidBlue) <==>
      0 <= r <= 255 && 0 <= g <= 255 && !(0 <= b <= 255)
    ensures !cfg.enableColorTransformation && 0 <= r <= 255 && 0 <= g <= 255 && 0 <= b <= 255 ==>
      ResolveRgb(r, g, b, cfg, pal, tf) == Ok(TrueColorValue(r, g, b))
    ensures ResolveRgb(r, g, b, cfg, pal, tf).Ok? ==>
      var v := ResolveRgb(r, g, b, cfg, pal, tf).value;
      v.colorType == TrueColor && v.plainSequence == TripletText(v.r, v.g, v.b)
  {
  }

  // ---------------------------------------------------------------------
  // Transformation
  // ---------------------------------------------------------------------

  /**
    With transformation enabled, every constructor yields a 24-bit color whose
    plain sequence spells the transformed channels in the `;2;` sequences.
   */
  lemma TransformForcesTrueColor(spec: string, red: int, green: int, blue: int, n: int,
                                 cfg: Config, pal: Palette, tf: Transforms)
    requires cfg.enableColorTransformation
    ensures ResolveSpecifier(spec, cfg, pal, tf).Ok? ==> IsTransformedValue(ResolveSpecifier(spec, cfg, pal, tf).value)
    ensures ResolveRgb(red, green, blue, cfg, pal, tf).Ok? ==> IsTransformedValue(ResolveRgb(red, green, blue, cfg, pal, tf).value)
    ensures ResolveNumber(n, cfg, pal, tf).Ok? ==> IsTransformedValue(ResolveNumber(n, cfg, pal, tf).value)
  {
    TransformedSpecifier(RemoveQuotes(spec), cfg, pal, tf);
    if 0 <= red <= 255 && 0 <= green <= 255 && 0 <= blue <= 255 {
      FilteredIsTransformed(Channels(red, green, blue), cfg, tf);
    }
    if 0 <= n <= 255 {
      TransformedIndex(n, cfg, pal, tf);
    }
  }

  lemma TransformedIndex(id: PaletteId, cfg: Config, pal: Palette, tf: Transforms)
    requires cfg.enableColorTransformation
    ensures ResolveIndex(id, cfg, pal, tf).Ok? ==> IsTransformedValue(ResolveIndex(id, cfg, pal, tf).value)
  {
    var e := pal.lookup(id);
    FilteredIsTransformed(Channels(e.r, e.g, e.b), cfg, tf);
  }

  lemma TransformedSpecifier(s: string, cfg: Config, pal: Palette, tf: Transforms)
    requires cfg.enableColorTransformation
    ensures ResolveUnquoted(s, cfg, pal, tf).Ok? ==> IsTransformedValue(ResolveUnquoted(s, cfg, pal, tf).value)
  {
    if ';' in s {
      var fields := Split(s, ';');
      if |fields| == 3 && ParseInt32(fields[0]).Some? && ParseInt32(fields[1]).Some? && ParseInt32(fields[2]).Some? {
        FilteredIsTransformed(Channels(ParseInt32(fields[0]).value, ParseInt32(fields[1]).value, ParseInt32(fields[2]).value), cfg, tf);
      }
    } else if IsDigits(s) || pal.byName(s).Some? {
      var id: nat := if IsDigits(s) then DigitsValue(s) else pal.byName(s).value;
      if id <= 255 {
        TransformedIndex(id, cfg, pal, tf);
      }
    } else if |s| > 0 && s[0] == '#' && ParseHex(s[1..]).Some? {
      var v := ParseHex(s[1..]).value;
      FilteredIsTransformed(Channels(RedBits(v), GreenBits(v), BlueBits(v)), cfg, tf);
    }
  }

  /** A transformed color is built from the simulation's channels, which lie in [0, 255]. */
  lemma FilteredIsTransformed(c: Channels, cfg: Config, tf: Transforms)
    requires cfg.enableColorTransformation
    ensures Filter(c, cfg, tf).Ok? ==>
      var f := Filter(c, cfg, tf).value;
      f.r <= 255 && f.g <= 255 && f.b <= 255 && IsTransformedValue(TrueColorValue(f.r, f.g, f.b))
  {
  }

  /** A color built from a simulation's result: 24-bit, channels in [0, 255], `;2;` form. */
  predicate IsTransformedValue(v: ColorValue) {
    && v.colorType == TrueColor
    && v.r <= 255 && v.g <= 255 && v.b <= 255
    && v.plainSequence == TripletText(v.r, v.g, v.b)
    && v.vtSequenceForeground == [ESC] + "[38;2;" + v.plainSequence + "m"
    && v.vtSequenceBackground == [ESC] + "[48;2;" + v.plainSequence + "m"
  }

  /**
    With transformation enabled, a palette slot's channels go through the
    selected simulation, and the color takes R, G and B from its result.
   */
  lemma IndexedWithTransform(id: PaletteId, cfg: Config, pal: Palette, tf: Transforms)
    requires cfg.enableColorTransformation
    ensures var e := pal.lookup(id);
      ResolveNumber(id, cfg, pal, tf) ==
        match Simulate(Channels(e.r, e.g, e.b), cfg, tf)
        case Ok(t) => Ok(TrueColorValue(t.r, t.g, t.b))
        case Err(e) => Err(TransformFailed(e))
  {
  }

  /** The same holds for Color(int R, int G, int B) once the channels are accepted. */
  lemma RgbWithTransform(r: Channel, g: Channel, b: Channel, cfg: Config, pal: Palette, tf: Transforms)
    requires cfg.enableColorTransformation
    ensures ResolveRgb(r, g, b, cfg, pal, tf) ==
        match Simulate(Channels(r, g, b), cfg, tf)
        case Ok(t) => Ok(TrueColorValue(t.r, t.g, t.b))
        case Err(e) => Err(TransformFailed(e))
  {
  }

  /**
    The simple simulation is used exactly when EnableSimpleColorTransformation
    is set: the other simulation never influences the result.
   */
  lemma SimpleAlgorithmIffFlag(spec: string, s1: Simulator, s2: Simulator, other: Simulator,
                               cfg: Config, pal: Palette)
    ensures cfg.enableSimpleColorTransformation ==>
      ResolveSpecifier(spec, cfg, pal, Transforms(s1, other)) == ResolveSpecifier(spec, cfg, pal, Transforms(s2, other))
    ensures !cfg.enableSimpleColorTransformation ==>
      ResolveSpecifier(spec, cfg, pal, Transforms(other, s1)) == ResolveSpecifier(spec, cfg, pal, Transforms(other, s2))
  {
  }

  /** With transformation disabled, neither simulation nor the deficiency settings matter. */
  lemma DisabledIgnoresSimulation(spec: string, cfg1: Config, cfg2: Config, pal: Palette,
                                  tf1: Transforms, tf2: Transforms)
    requires !cfg1.enableColorTransformation && !cfg2.enableColorTransformation
    ensures ResolveSpecifier(spec, cfg1, pal, tf1) == ResolveSpecifier(spec, cfg2, pal, tf2)
  {
  }

  // ---------------------------------------------------------------------
  // Re-reading the outputs
  // ---------------------------------------------------------------------

  /**
    The plain sequence of any color built from a specifier is itself a
    specifier for the same color when transformation is off.
   */
  lemma PlainSequenceReparses(spec: string, cfg: Config, pal: Palette, tf: Transforms)
    requires ResolveSpecifier(spec, cfg, pal, tf).Ok?
    ensures var v := ResolveSpecifier(spec, cfg, pal, tf).value;
      ResolveSpecifier(v.plainSequence, cfg.(enableColorTransformation := false), pal, tf) == Ok(v)
  {
    var v := ResolveSpecifier(spec, cfg, pal, tf).value;
    var off := cfg.(enableColorTransformation := false);
    if v.colorType == TrueColor {
      assert v == TrueColorValue(v.r, v.g, v.b);
      assert v.r <= INT32_MAX && v.g <= INT32_MAX && v.b <= INT32_MAX;
      TripletWithoutTransform(v.r, v.g, v.b, off, pal, tf);
    } else {
      var s := RemoveQuotes(spec);
      var id: nat := if IsDigits(s) then DigitsValue(s) else pal.byName(s).value;
      assert v == IndexedValue(id, pal.lookup(id));
      NumberTextMatchesNumber(id, off, pal, tf);
    }
  }

  /** The same holds for Color(int R, int G, int B) and Color(int ColorNum). */
  lemma PlainSequenceReparsesNumeric(r: int, g: int, b: int, n: int, cfg: Config, pal: Palette, tf: Transforms)
    ensures ResolveRgb(r, g, b, cfg, pal, tf).Ok? ==>
      var v := ResolveRgb(r, g, b, cfg, pal, tf).value;
      ResolveSpecifier(v.plainSequence, cfg.(enableColorTransformation := false), pal, tf) == Ok(v)
    ensures ResolveNumber(n, cfg, pal, tf).Ok? ==>
      var v := ResolveNumber(n, cfg, pal, tf).value;
      ResolveSpecifier(v.plainSequence, cfg.(enableColorTransformation := false), pal, tf) == Ok(v)
  {
    var off := cfg.(enableColorTransformation := false);
    if ResolveRgb(r, g, b, cfg, pal, tf).Ok? {
      var v := ResolveRgb(r, g, b, cfg, pal, tf).value;
      TripletWithoutTransform(v.r, v.g, v.b, off, pal, tf);
    }
    if ResolveNumber(n, cfg, pal, tf).Ok? {
      var v := ResolveNumber(n, cfg, pal, tf).value;
      if v.colorType == TrueColor {
        TripletWithoutTransform(v.r, v.g, v.b, off, pal, tf);
      } else {
        NumberTextMatchesNumber(n, off, pal, tf);
      }
    }
  }

  // ---------------------------------------------------------------------
  // Brightness
  // ---------------------------------------------------------------------

  /**
    With integer channels the source's sum crosses 127.5 between 126 and 127:
    a color is bright exactly when r + g + b >= 127, dark otherwise, never both.
   */
  lemma BrightnessThreshold(r: int, g: int, b: int)
    ensures ComputedIsBright(r, g, b) <==> r + g + b >= 127
    ensures ComputedIsDark(r, g, b) <==> r + g + b <= 126
    ensures ComputedIsBright(r, g, b) != ComputedIsDark(r, g, b)
  {
  }

  // ---------------------------------------------------------------------
  // Reference scenarios
  // ---------------------------------------------------------------------

  lemma TripletExampleText()
    ensures TripletText(94, 0, 63) == "94;0;63"
    ensures HexOf(94, 0, 63) == "#5E003F"
  {
    assert Decimal(94) == "94" && Decimal(63) == "63" && Decimal(0) == "0";
    assert X2(94) == "5E" && X2(0) == "00" && X2(63) == "3F";
  }

  lemma TripletExample(cfg: Config, pal: Palette, tf: Transforms)
    requires !cfg.enableColorTransformation
    ensures var res := ResolveSpecifier("94;0;63", cfg, pal, tf);
      && res.Ok?
      && res.value.plainSequence == "94;0;63"
      && res.value.colorType == TrueColor
      && res.value.vtSequenceBackground == [ESC] + "[48;2;94;0;63m"
      && res.value.vtSequenceForeground == [ESC] + "[38;2;94;0;63m"
      && res.value.r == 94 && res.value.g == 0 && res.value.b == 63
      && res.value.isBright && !res.value.isDark
      && res.value.hex == "#5E003F"
  {
    TripletExampleText();
    TripletWithoutTransform(94, 0, 63, cfg, pal, tf);
    assert ResolveSpecifier("94;0;63", cfg, pal, tf) == Ok(TrueColorValue(94, 0, 63));
    TripletExampleValue();
  }

  lemma TripletExampleValue()
    ensures TrueColorValue(94, 0, 63) == ColorValue(94, 0, 63, "94;0;63",
      [ESC] + "[38;2;94;0;63m", [ESC] + "[48;2;94;0;63m", TrueColor, true, false, "#5E003F")
  {
    TripletExampleText();
    BrightnessThreshold(94, 0, 63);
  }

  lemma HexExampleText()
    ensures HexOf(15, 15, 15) == "#0F0F0F"
    ensures TripletText(15, 15, 15) == "15;15;15"
  {
    assert X2(15) == "0F";
    assert Decimal(15) == "15";
  }

  lemma HexExample(cfg: Config, pal: Palette, tf: Transforms)
    requires !cfg.enableColorTransformation
    requires ValidPalette(pal)
    ensures var res := ResolveSpecifier("#0F0F0F", cfg, pal, tf);
      && res.Ok?
      && res.value.plainSequence == "15;15;15"
      && res.value.colorType == TrueColor
      && res.value.vtSequenceBackground == [ESC] + "[48;2;15;15;15m"
      && res.value.vtSequenceForeground == [ESC] + "[38;2;15;15;15m"
      && res.value.r == 15 && res.value.g == 15 && res.value.b == 15
      && !res.value.isBright && res.value.isDark
      && res.value.hex == "#0F0F0F"
  {
    HexExampleText();
    HexRoundTrip(15, 15, 15, cfg, pal, tf);
    RgbChecksChannelsFirst(15, 15, 15, cfg, pal, tf);
    assert ResolveSpecifier("#0F0F0F", cfg, pal, tf) == Ok(TrueColorValue(15, 15, 15));
    HexExampleValue();
  }

  lemma HexExampleValue()
    ensures TrueColorValue(15, 15, 15) == ColorValue(15, 15, 15, "15;15;15",
      [ESC] + "[38;2;15;15;15m", [ESC] + "[48;2;15;15;15m", TrueColor, false, true, "#0F0F0F")
  {
    HexExampleText();
    BrightnessThreshold(15, 15, 15);
  }

  lemma Palette255Example(cfg: Config, pal: Palette, tf: Transforms)
    requires !cfg.enableColorTransformation
    requires pal.lookup(18) == PaletteEntry(0, 0, 135, true, false)
    ensures var res := ResolveNumber(18, cfg, pal, tf);
      && res.Ok?
      && res.value.plainSequence == "18"
      && res.value.colorType == Color255
      && res.value.vtSequenceBackground == [ESC] + "[48;5;18m"
      && res.value.vtSequenceForeground == [ESC] + "[38;5;18m"
      && res.value.r == 0 && res.value.g == 0 && res.value.b == 135
      && res.value.isBright && !res.value.isDark
      && res.value.hex == "#000087"
  {
    assert Decimal(18) == "18";
    assert X2(135) == "87" && X2(0) == "00";
  }

  lemma Palette16Example(cfg: Config, pal: Palette, tf: Transforms)
    requires !cfg.enableColorTransformation
    requires pal.lookup(13) == PaletteEntry(255, 0, 255, true, false)
    ensures var res := ResolveNumber(13, cfg, pal, tf);
      && res.Ok?
      && res.value.plainSequence == "13"
      && res.value.colorType == Color16
      && res.value.vtSequenceBackground == [ESC] + "[48;5;13m"
      && res.value.vtSequenceForeground == [ESC] + "[38;5;13m"
      && res.value.r == 255 && res.value.g == 0 && res.value.b == 255
      && res.value.isBright && !res.value.isDark
      && res.value.hex == "#FF00FF"
  {
    assert Decimal(13) == "13";
    assert X2(255) == "FF" && X2(0) == "00";
  }
}
