/**
  The text handling the color constructors rely on: removing double quotes,
  splitting on a separator, decimal and hexadecimal parsing as done by
  Convert.ToInt32 (restricted to plain digit strings), and the decimal and
  "X2" renderings used by string interpolation.
 */
module Text {
  import opened Wrappers

  /** The largest value Convert.ToInt32 accepts (Int32.MaxValue). */
  const INT32_MAX: nat := 0x7FFF_FFFF

  // ---------------------------------------------------------------------
  // Quote removal (String.Replace("\"", ""))
  // ---------------------------------------------------------------------

  /** `s` with every double-quote character removed. */
  function RemoveQuotes(s: string): (r: string)
    ensures '"' !in r
    ensures |r| <= |s|
    ensures forall c :: c != '"' ==> (c in r <==> c in s)
  {
    if |s| == 0 then ""
    else if s[0] == '"' then RemoveQuotes(s[1..])
    else [s[0]] + RemoveQuotes(s[1..])
  }

  /** Removing quotes from a quote-free string leaves it unchanged. */
  lemma {:induction false} RemoveQuotesNoQuotes(s: string)
    requires '"' !in s
    ensures RemoveQuotes(s) == s
  {
    if |s| > 0 {
      assert '"' !in s[1..];
      RemoveQuotesNoQuotes(s[1..]);
    }
  }

  /** Quote removal is idempotent. */
  lemma RemoveQuotesIdempotent(s: string)
    ensures RemoveQuotes(RemoveQuotes(s)) == RemoveQuotes(s)
  {
    RemoveQuotesNoQuotes(RemoveQuotes(s));
  }

  /** Removing quotes distributes over concatenation. */
  lemma {:induction false} RemoveQuotesAppend(a: string, b: string)
    ensures RemoveQuotes(a + b) == RemoveQuotes(a) + RemoveQuotes(b)
  {
    if |a| > 0 {
      assert (a + b)[1..] == a[1..] + b;
      RemoveQuotesAppend(a[1..], b);
    } else {
      assert a + b == b;
    }
  }

  // ---------------------------------------------------------------------
  // Splitting (String.Split(char))
  // ---------------------------------------------------------------------

  /**
    The fields of `s` between occurrences of `sep`, empty fields included,
    so that a string with k separators has k + 1 fields.
   */
  function Split(s: string, sep: char): (parts: seq<string>)
    ensures |parts| >= 1
    ensures forall i :: 0 <= i < |parts| ==> sep !in parts[i]
    ensures |parts| == 1 <==> sep !in s
  {
    if |s| == 0 then [""]
    else
      var rest := Split(s[1..], sep);
      if s[0] == sep then [""] + rest
      else [[s[0]] + rest[0]] + rest[1..]
  }

  /** The fields joined back with the separator. */
  function Join(parts: seq<string>, sep: char): string
    requires |parts| >= 1
  {
    if |parts| == 1 then parts[0] else parts[0] + [sep] + Join(parts[1..], sep)
  }

  /** Joining the fields of a split gives back the original string. */
  lemma {:induction false} JoinSplit(s: string, sep: char)
    ensures Join(Split(s, sep), sep) == s
  {
    if |s| > 0 {
      var rest := Split(s[1..], sep);
      JoinSplit(s[1..], sep);
      if s[0] == sep {
        assert Split(s, sep) == [""] + rest;
        assert ([""] + rest)[1..] == rest;
      } else {
        var parts := Split(s, sep);
        assert parts == [[s[0]] + rest[0]] + rest[1..];
        if |rest| == 1 {
          assert parts[0] == [s[0]] + rest[0];
        } else {
          assert parts[1..] == rest[1..];
          assert Join(rest, sep) == rest[0] + [sep] + Join(rest[1..], sep);
        }
      }
    }
  }

  /** A separator-free prefix followed by the separator is split off as one field. */
  lemma {:induction false} SplitCons(a: string, sep: char, rest: string)
    requires sep !in a
    ensures Split(a + [sep] + rest, sep) == [a] + Split(rest, sep)
  {
    if |a| == 0 {
      assert a + [sep] + rest == [sep] + rest;
      assert ([sep] + rest)[1..] == rest;
    } else {
      var s := a + [sep] + rest;
      assert s[0] == a[0];
      assert s[1..] == a[1..] + [sep] + rest;
      SplitCons(a[1..], sep, rest);
      assert [a[0]] + a[1..] == a;
    }
  }

  /** A string without the separator is a single field. */
  lemma SplitSingle(a: string, sep: char)
    requires sep !in a
    ensures Split(a, sep) == [a]
  {
    var parts := Split(a, sep);
    JoinSplit(a, sep);
  }

  /** The three fields of `a;b;c` are `a`, `b` and `c`. */
  lemma SplitThree(a: string, b: string, c: string, sep: char)
    requires sep !in a && sep !in b && sep !in c
    ensures Split(a + [sep] + b + [sep] + c, sep) == [a, b, c]
  {
    var tail := b + [sep] + c;
    assert a + [sep] + b + [sep] + c == a + [sep] + tail;
    SplitCons(a, sep, tail);
    SplitCons(b, sep, c);
    SplitSingle(c, sep);
    assert Split(tail, sep) == [b] + [c];
  }

  // ---------------------------------------------------------------------
  // Decimal text
  // ---------------------------------------------------------------------

  predicate IsDigit(c: char) {
    '0' <= c <= '9'
  }

  /** A non-empty string of ASCII decimal digits. */
  predicate IsDigits(s: string) {
    |s| > 0 && forall i :: 0 <= i < |s| ==> IsDigit(s[i])
  }

  function DigitValue(c: char): (d: nat)
    requires IsDigit(c)
    ensures d < 10
  {
    (c as int - '0' as int)
  }

  function DigitChar(d: nat): (c: char)
    requires d < 10
    ensures IsDigit(c) && DigitValue(c) == d
  {
    ('0' as int + d) as char
  }

  /** The number written by the digits of `s`, most significant first. */
  function DigitsValue(s: string): nat
    requires forall i :: 0 <= i < |s| ==> IsDigit(s[i])
  {
    if |s| == 0 then 0 else DigitsValue(s[..|s| - 1]) * 10 + DigitValue(s[|s| - 1])
  }

  /** The shortest decimal rendering of `n` (what `$"{n}"` prints for a non-negative int). */
  function Decimal(n: nat): (s: string)
    ensures IsDigits(s)
    ensures |s| > 1 ==> s[0] != '0'
  {
    if n < 10 then [DigitChar(n)] else Decimal(n / 10) + [DigitChar(n % 10)]
  }

  /** Decimal rendering is inverted by reading the digits back. */
  lemma {:induction false} DigitsValueDecimal(n: nat)
    ensures DigitsValue(Decimal(n)) == n
  {
    if n >= 10 {
      var s := Decimal(n);
      assert s[..|s| - 1] == Decimal(n / 10);
      DigitsValueDecimal(n / 10);
    }
  }

  /**
    Convert.ToInt32 on a string of decimal digits: the value, or None when the
    string is not a digit string or the value overflows a 32-bit int.
   */
  function ParseInt32(s: string): (r: Option<nat>)
    ensures r.Some? <==> IsDigits(s) && DigitsValue(s) <= INT32_MAX
    ensures r.Some? ==> r.value <= INT32_MAX
  {
    if IsDigits(s) && DigitsValue(s) <= INT32_MAX then Some(DigitsValue(s)) else None
  }

  /** Every int32-sized number round-trips through its decimal rendering. */
  lemma ParseInt32Decimal(n: nat)
    requires n <= INT32_MAX
    ensures ParseInt32(Decimal(n)) == Some(n)
  {
    DigitsValueDecimal(n);
  }

  // ---------------------------------------------------------------------
  // Hexadecimal text
  // ---------------------------------------------------------------------

  predicate IsHexDigit(c: char) {
    IsDigit(c) || 'A' <= c <= 'F' || 'a' <= c <= 'f'
  }

  function HexDigitValue(c: char): (d: nat)
    requires IsHexDigit(c)
    ensures d < 16
  {
    if IsDigit(c) then DigitValue(c)
    else if 'A' <= c <= 'F' then c as int - 'A' as int + 10
    else c as int - 'a' as int + 10
  }

  /** The upper-case hexadecimal digit for `d`. */
  function HexDigit(d: nat): (c: char)
    requires d < 16
    ensures IsHexDigit(c) && HexDigitValue(c) == d
    ensures !('a' <= c <= 'f')
  {
    if d < 10 then DigitChar(d) else ('A' as int + d - 10) as char
  }

  /** The number written by the hexadecimal digits of `s`, most significant first. */
  function HexValue(s: string): nat
    requires forall i :: 0 <= i < |s| ==> IsHexDigit(s[i])
  {
    if |s| == 0 then 0 else HexValue(s[..|s| - 1]) * 16 + HexDigitValue(s[|s| - 1])
  }

  /** Bounded size of a hex number: k digits stay below 16^k. */
  lemma {:induction false} HexValueBound(s: string)
    requires forall i :: 0 <= i < |s| ==> IsHexDigit(s[i])
    ensures HexValue(s) < Pow16(|s|)
  {
    if |s| > 0 {
      HexValueBound(s[..|s| - 1]);
    }
  }

  function Pow16(k: nat): (p: nat)
    ensures p >= 1
  {
    if k == 0 then 1 else 16 * Pow16(k - 1)
  }

  /**
    Convert.ToInt32(s, 16) on a string of hexadecimal digits of either case:
    the unsigned 32-bit pattern it reads (a pattern of 0x8000_0000 or more is
    the negative int with those bits), or None when the text is empty, holds
    anything else, or overflows 32 bits.
   */
  function ParseHex(s: string): (r: Option<nat>)
    ensures r.Some? <==>
      && 1 <= |s|
      && (forall i :: 0 <= i < |s| ==> IsHexDigit(s[i]))
      && HexValue(s) < 0x1_0000_0000
    ensures r.Some? ==> r.value == HexValue(s) && r.value < 0x1_0000_0000
  {
    if 1 <= |s| && (forall i :: 0 <= i < |s| ==> IsHexDigit(s[i])) && HexValue(s) < 0x1_0000_0000 then
      Some(HexValue(s))
    else None
  }

  /** One to eight hexadecimal digits always fit in 32 bits. */
  lemma ParseHexEightDigits(s: string)
    requires 1 <= |s| <= 8 && forall i :: 0 <= i < |s| ==> IsHexDigit(s[i])
    ensures ParseHex(s).Some?
  {
    HexValueBound(s);
    Pow16Monotone(|s|, 8);
    assert Pow16(8) == 0x1_0000_0000;
  }

  lemma {:induction false} Pow16Monotone(i: nat, j: nat)
    requires i <= j
    ensures Pow16(i) <= Pow16(j)
  {
    if i < j {
      Pow16Monotone(i, j - 1);
    }
  }

  /**
    The "X2" format of a non-negative int: upper-case hexadecimal with at
    least `width` digits (leading zeros added, never truncated).
   */
  function HexPadded(n: nat, width: nat): (s: string)
    ensures |s| >= 1 && |s| >= width
    ensures forall i :: 0 <= i < |s| ==> IsHexDigit(s[i]) && !('a' <= s[i] <= 'f')
    decreases n, width
  {
    if n < 16 && width <= 1 then [HexDigit(n)]
    else HexPadded(n / 16, if width == 0 then 0 else width - 1) + [HexDigit(n % 16)]
  }

  /** `$"{n:X2}"`. */
  function X2(n: nat): string {
    HexPadded(n, 2)
  }

  /** A byte prints as exactly two upper-case hex digits, high nibble first. */
  lemma X2Byte(n: nat)
    requires n < 256
    ensures X2(n) == [HexDigit(n / 16), HexDigit(n % 16)]
  {
    if n < 16 {
      assert HexPadded(n, 2) == HexPadded(0, 1) + [HexDigit(n)];
    } else {
      assert HexPadded(n, 2) == HexPadded(n / 16, 1) + [HexDigit(n % 16)];
    }
  }

  /** Reading back the X2 rendering gives the number again. */
  lemma {:induction false} HexValueHexPadded(n: nat, width: nat)
    ensures HexValue(HexPadded(n, width)) == n
    decreases n, width
  {
    if !(n < 16 && width <= 1) {
      var w := if width == 0 then 0 else width - 1;
      var s := HexPadded(n, width);
      assert s[..|s| - 1] == HexPadded(n / 16, w);
      HexValueHexPadded(n / 16, w);
    }
  }

  /** The value of concatenated hex digits: the high part shifted by the low part's length. */
  lemma {:induction false} HexValueAppend(a: string, b: string)
    requires forall i :: 0 <= i < |a| ==> IsHexDigit(a[i])
    requires forall i :: 0 <= i < |b| ==> IsHexDigit(b[i])
    ensures HexValue(a + b) == HexValue(a) * Pow16(|b|) + HexValue(b)
  {
    if |b| == 0 {
      assert a + b == a;
    } else {
      var s, b' := a + b, b[..|b| - 1];
      var d := HexDigitValue(b[|b| - 1]);
      assert s[..|s| - 1] == a + b';
      assert HexValue(s) == HexValue(a + b') * 16 + d;
      HexValueAppend(a, b');
      assert HexValue(b) == HexValue(b') * 16 + d;
      calc {
        HexValue(a + b') * 16 + d;
        (HexValue(a) * Pow16(|b'|) + HexValue(b')) * 16 + d;
        { MulAssoc(HexValue(a), Pow16(|b'|), 16); }
        HexValue(a) * (Pow16(|b'|) * 16) + HexValue(b') * 16 + d;
      }
    }
  }

  lemma MulAssoc(x: int, y: int, z: int)
    ensures (x * y) * z == x * (y * z)
  {
  }

  /** Six hex digits of three bytes read back as the 24-bit number they encode. */
  lemma ParseHexBytes(r: nat, g: nat, b: nat)
    requires r < 256 && g < 256 && b < 256
    ensures ParseHex(X2(r) + X2(g) + X2(b)) == Some(r * 0x1_0000 + g * 0x100 + b)
  {
    X2Byte(r);
    X2Byte(g);
    X2Byte(b);
    HexValueHexPadded(r, 2);
    HexValueHexPadded(g, 2);
    HexValueHexPadded(b, 2);
    HexValueAppend(X2(r), X2(g));
    HexValueAppend(X2(r) + X2(g), X2(b));
    assert Pow16(2) == 0x100;
  }
}
