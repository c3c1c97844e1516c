/**
  The Color class: each constructor of the source is a static factory that
  allocates a Color and assigns its fields step by step, or reports the
  exception the constructor would throw. Each is proved to deliver exactly what
  the matching function of module Resolution specifies.
 */
module ColorSeq {
  import opened Wrappers
  import opened Text
  import opened Accessibility
  import opened Resolution

  /** `res` is the object form of `expected`: the same error, or an object carrying the expected fields. */
  ghost predicate Delivers(res: Result<Color, Error>, expected: Result<ColorValue, Error>)
    reads if res.Ok? then {res.value} else {}
  {
    match res
    case Ok(c) => expected == Ok(c.Value())
    case Err(e) => expected == Err(e)
  }

  class Color {
    var plainSequence: string
    var vtSequenceForeground: string
    var vtSequenceBackground: string
    var r: nat
    var g: nat
    var b: nat
    var hex: string
    var colorType: ColorType
    var isBright: bool
    var isDark: bool

    /** The fields as one value. */
    function Value(): ColorValue
      reads this
    {
      ColorValue(r, g, b, plainSequence, vtSequenceForeground, vtSequenceBackground,
                 colorType, isBright, isDark, hex)
    }

    /** A color whose fields are not yet set. */
    constructor ()
      ensures Value() == ColorValue(0, 0, 0, "", "", "", TrueColor, false, false, "")
    {
      plainSequence, vtSequenceForeground, vtSequenceBackground := "", "", "";
      r, g, b := 0, 0, 0;
      hex := "";
      colorType := TrueColor;
      isBright, isDark := false, false;
    }

    /** Sets the sequences, the type, the brightness and the channels of a 24-bit color; Hex is left as it was. */
    method FormTrueColor(red: nat, green: nat, blue: nat)
      modifies this
      ensures Value() == TrueColorValue(red, green, blue).(hex := old(hex))
    {
      plainSequence := TripletText(red, green, blue);
      vtSequenceForeground := TrueColorSequence(FOREGROUND, plainSequence);
      vtSequenceBackground := TrueColorSequence(BACKGROUND, plainSequence);
      colorType := TrueColor;
      isBright := ComputedIsBright(red, green, blue);
      isDark := ComputedIsDark(red, green, blue);
      r := red;
      g := green;
      b := blue;
    }

    /**
      Sets the fields of a palette color from its entry and its (possibly
      transformed) channels; Hex is left as it was.
     */
    method FormPaletteColor(id: PaletteId, info: PaletteEntry, red: nat, green: nat, blue: nat, transformed: bool)
      modifies this
      ensures transformed ==> Value() == TrueColorValue(red, green, blue).(hex := old(hex))
      ensures !transformed && red == info.r && green == info.g && blue == info.b ==>
        Value() == IndexedValue(id, info).(hex := old(hex))
    {
      if transformed {
        FormTrueColor(red, green, blue);
      } else {
        plainSequence := Decimal(id);
        vtSequenceForeground := IndexedSequence(FOREGROUND, plainSequence);
        vtSequenceBackground := IndexedSequence(BACKGROUND, plainSequence);
        colorType := if id >= 16 then Color255 else Color16;
        isBright := info.isBright;
        isDark := info.isDark;
        r := red;
        g := green;
        b := blue;
      }
    }

    /** Sets Hex from the final channels. */
    method PopulateHex()
      modifies this
      ensures Value() == old(Value()).(hex := HexOf(r, g, b))
    {
      hex := "#" + X2(r) + X2(g) + X2(b);
    }

    /**
      The color-blindness filter each constructor applies: the selected
      simulation replaces the channels when transformation is enabled.
     */
    static method FilterChannels(red: nat, green: nat, blue: nat, cfg: Config, tf: Transforms)
      returns (res: Result<Channels, Error>)
      ensures res == Filter(Channels(red, green, blue), cfg, tf)
    {
      var r, g, b := red, green, blue;
      if cfg.enableColorTransformation {
        var transformed;
        if cfg.enableSimpleColorTransformation {
          transformed := tf.vienot(r, g, b, cfg.colorDeficiency, cfg.colorDeficiencySeverity);
        } else {
          transformed := tf.brettel(r, g, b, cfg.colorDeficiency, cfg.colorDeficiencySeverity);
        }
        if transformed.Err? {
          return Err(TransformFailed(transformed.error));
        }
        r, g, b := transformed.value.r, transformed.value.g, transformed.value.b;
      }
      res := Ok(Channels(r, g, b));
    }

    /** Color(string ColorSpecifier): removes the quotes, then takes the first branch that applies. */
    static method FromSpecifier(colorSpecifier: string, cfg: Config, pal: Palette, tf: Transforms)
      returns (res: Result<Color, Error>)
      ensures res.Ok? ==> fresh(res.value)
      ensures Delivers(res, ResolveSpecifier(colorSpecifier, cfg, pal, tf))
    {
      var spec := RemoveQuotes(colorSpecifier);
      if ';' in spec {
        res := FromTriplet(Split(spec, ';'), cfg, tf);
      } else if IsDigits(spec) || pal.byName(spec).Some? {
        res := FromPaletteText(spec, cfg, pal, tf);
      } else if |spec| > 0 && spec[0] == '#' {
        res := FromHex(spec[1..], cfg, tf);
      } else {
        res := Err(InvalidSpecifier);
      }
    }

    /** The `R;G;B` branch of Color(string), given the fields between the `;`s. */
    static method FromTriplet(fields: seq<string>, cfg: Config, tf: Transforms)
      returns (res: Result<Color, Error>)
      ensures res.Ok? ==> fresh(res.value)
      ensures Delivers(res, ResolveTriplet(fields, cfg, tf))
    {
      if |fields| != 3 {
        return Err(InvalidSpecifier);
      }
      var pr, pg, pb := ParseInt32(fields[0]), ParseInt32(fields[1]), ParseInt32(fields[2]);
      if pr.None? || pg.None? || pb.None? {
        return Err(BadNumber);
      }
      var red, green, blue := pr.value, pg.value, pb.value;
      var filtered := FilterChannels(red, green, blue, cfg, tf);
      if filtered.Err? {
        return Err(filtered.error);
      }
      red, green, blue := filtered.value.r, filtered.value.g, filtered.value.b;
      var c := new Color();
      c.FormTrueColor(red, green, blue);
      c.PopulateHex();
      res := Ok(c);
    }

    /** The number-or-name branch of Color(string). */
    static method FromPaletteText(spec: string, cfg: Config, pal: Palette, tf: Transforms)
      returns (res: Result<Color, Error>)
      requires IsDigits(spec) || pal.byName(spec).Some?
      ensures res.Ok? ==> fresh(res.value)
      ensures Delivers(res, ResolvePaletteText(spec, cfg, pal, tf))
    {
      var id: nat := if IsDigits(spec) then DigitsValue(spec) else pal.byName(spec).value;
      if id > 255 {
        return Err(UnknownColor);
      }
      var info := pal.lookup(id);
      var red, green, blue: nat := info.r, info.g, info.b;
      var filtered := FilterChannels(red, green, blue, cfg, tf);
      if filtered.Err? {
        return Err(filtered.error);
      }
      red, green, blue := filtered.value.r, filtered.value.g, filtered.value.b;
      var c := new Color();
      c.FormPaletteColor(id, info, red, green, blue, cfg.enableColorTransformation);
      c.PopulateHex();
      res := Ok(c);
    }

    /** The `#` branch of Color(string), given the text after the `#`. */
    static method FromHex(digits: string, cfg: Config, tf: Transforms)
      returns (res: Result<Color, Error>)
      ensures res.Ok? ==> fresh(res.value)
      ensures Delivers(res, ResolveHex(digits, cfg, tf))
    {
      var colorDecimal := ParseHex(digits);
      if colorDecimal.None? {
        return Err(BadNumber);
      }
      var c := new Color();
      // The channels are written from the bit fields, then overwritten by the transform.
      c.r := RedBits(colorDecimal.value);
      c.g := GreenBits(colorDecimal.value);
      c.b := BlueBits(colorDecimal.value);
      var filtered := FilterChannels(c.r, c.g, c.b, cfg, tf);
      if filtered.Err? {
        return Err(filtered.error);
      }
      c.r, c.g, c.b := filtered.value.r, filtered.value.g, filtered.value.b;
      c.FormTrueColor(c.r, c.g, c.b);
      c.PopulateHex();
      res := Ok(c);
    }

    /** Color(int R, int G, int B). */
    static method FromRgb(red: int, green: int, blue: int, cfg: Config, pal: Palette, tf: Transforms)
      returns (res: Result<Color, Error>)
      ensures res.Ok? ==> fresh(res.value)
      ensures Delivers(res, ResolveRgb(red, green, blue, cfg, pal, tf))
    {
      if red < 0 || red > 255 {
        return Err(InvalidRed);
      }
      if green < 0 || green > 255 {
        return Err(InvalidGreen);
      }
      if blue < 0 || blue > 255 {
        return Err(InvalidBlue);
      }
      var cr, cg, cb: nat := red, green, blue;
      var filtered := FilterChannels(cr, cg, cb, cfg, tf);
      if filtered.Err? {
        return Err(filtered.error);
      }
      cr, cg, cb := filtered.value.r, filtered.value.g, filtered.value.b;
      var c := new Color();
      c.FormTrueColor(cr, cg, cb);
      c.PopulateHex();
      res := Ok(c);
    }

    /** Color(int ColorNum). */
    static method FromNumber(colorNum: int, cfg: Config, pal: Palette, tf: Transforms)
      returns (res: Result<Color, Error>)
      ensures res.Ok? ==> fresh(res.value)
      ensures Delivers(res, ResolveNumber(colorNum, cfg, pal, tf))
    {
      if colorNum < 0 || colorNum > 255 {
        return Err(UnknownColor);
      }
      var info := pal.lookup(colorNum);
      var cr, cg, cb: nat := info.r, info.g, info.b;
      var filtered := FilterChannels(cr, cg, cb, cfg, tf);
      if filtered.Err? {
        return Err(filtered.error);
      }
      cr, cg, cb := filtered.value.r, filtered.value.g, filtered.value.b;
      var c := new Color();
      c.FormPaletteColor(colorNum, info, cr, cg, cb, cfg.enableColorTransformation);
      c.PopulateHex();
      res := Ok(c);
    }

    /** Color(ConsoleColors ColorDef): the enumeration value as a color number. */
    static method FromConsoleColor(colorDef: PaletteId, cfg: Config, pal: Palette, tf: Transforms)
      returns (res: Result<Color, Error>)
      ensures res.Ok? ==> fresh(res.value)
      ensures Delivers(res, ResolveNumber(colorDef, cfg, pal, tf))
    {
      res := FromNumber(colorDef, cfg, pal, tf);
    }
  }

  /** Holds the lazily built Color.Empty instance (ColorTools._empty). */
  class ColorTools {
    var empty: Color?

    constructor ()
      ensures empty == null
    {
      empty := null;
    }

    /**
      Color.Empty: the cached instance when there is one; otherwise builds
      Color(0), caches it and returns it.
     */
    method Empty(cfg: Config, pal: Palette, tf: Transforms) returns (res: Result<Color, Error>)
      modifies this
      ensures old(empty) != null ==> res == Ok(old(empty)) && empty == old(empty)
      ensures old(empty) == null ==> Delivers(res, ResolveNumber(0, cfg, pal, tf))
      ensures old(empty) == null && res.Ok? ==> fresh(res.value) && empty == res.value
      ensures old(empty) == null && res.Err? ==> empty == null
    {
      if empty != null {
        return Ok(empty);
      }
      var made := Color.FromNumber(0, cfg, pal, tf);
      if made.Err? {
        return made;
      }
      empty := made.value;
      res := Ok(empty);
    }
  }
}
