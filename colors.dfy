/**
 * `_rgb_to_hex`, written identically in all three viewers:
 * `f"#{rgb[0]:02x}{rgb[1]:02x}{rgb[2]:02x}"`.
 */
module Colors {
  const HexChars: string := "0123456789abcdef"

  datatype Rgb = Rgb(r: int, g: int, b: int)

  predicate IsChannel(n: int) { 0 <= n < 256 }

  predicate IsLowerHex(s: string)
  {
    forall i :: 0 <= i < |s| ==> s[i] in HexChars
  }

  function HexDigit(d: nat): (c: char)
    requires d < 16
  {
    HexChars[d]
  }

  /** The value of one lower-case hexadecimal digit. */
  function DigitValue(c: char): (d: nat)
    requires c in HexChars
  {
    if c <= '9' then c as int - '0' as int else c as int - 'a' as int + 10
  }

  lemma DigitValueOfHexDigit(d: nat)
    requires d < 16
    ensures DigitValue(HexDigit(d)) == d
  {
  }

  /** Python's `format(n, "x")` for n >= 0: lower-case digits, no leading zeros. */
  function HexDigits(n: nat): (s: string)
    ensures IsLowerHex(s)
    ensures n < 16 <==> |s| == 1
    ensures n < 256 <==> |s| <= 2
  {
    if n < 16 then [HexDigit(n)] else HexDigits(n / 16) + [HexDigit(n % 16)]
  }

  /** Reads a string of lower-case hexadecimal digits, most significant first. */
  function ParseHex(s: string): (n: nat)
    requires IsLowerHex(s)
  {
    if |s| == 0 then 0 else 16 * ParseHex(s[..|s| - 1]) + DigitValue(s[|s| - 1])
  }

  /** Reading the digits back gives the number. */
  lemma {:induction false} ParseHexDigits(n: nat)
    ensures ParseHex(HexDigits(n)) == n
  {
    var s := HexDigits(n);
    if n < 16 {
      DigitValueOfHexDigit(n);
    } else {
      assert s[..|s| - 1] == HexDigits(n / 16);
      ParseHexDigits(n / 16);
      DigitValueOfHexDigit(n % 16);
    }
  }

  /**
   * Python's `format(n, "02x")`: a minus sign for negative n, and zero
   * padding to a width of two characters, the sign included.
   */
  function Format02x(n: int): (s: string)
    ensures |s| >= 2
    ensures n < 0 <==> s[0] == '-'
    ensures 0 <= n ==> IsLowerHex(s)
    ensures IsChannel(n) <==> |s| == 2 && IsLowerHex(s)
  {
    if n < 0 then "-" + HexDigits(-n)
    else
      var d := HexDigits(n);
      if |d| < 2 then "0" + d else d
  }

  /** A channel in 0..255 is written as two digits that read back as the channel. */
  lemma ChannelRoundTrip(n: int)
    requires IsChannel(n)
    ensures ParseHex(Format02x(n)) == n
  {
    ParseHexDigits(n);
    var d := HexDigits(n);
    if |d| < 2 {
      var s := "0" + d;
      assert s[..1] == "0";
      assert ParseHex(s[..1]) == 0;
      assert s[..|s| - 1] == "0";
      assert s[|s| - 1] == d[0];
      assert ParseHex(d) == DigitValue(d[0]) by { assert d[..0] == []; }
    }
  }

  /** Where the three channels sit in the colour string. */
  lemma Slices(x: string, y: string, z: string)
    requires |x| == 2 && |y| == 2 && |z| == 2
    ensures var s := "#" + x + y + z;
      |s| == 7 && s[1..3] == x && s[3..5] == y && s[5..7] == z && s[1..] == x + y + z
  {
  }

  /** `_rgb_to_hex(rgb)`. */
  function RgbToHex(c: Rgb): (s: string)
    ensures |s| >= 7 && s[0] == '#'
  {
    "#" + Format02x(c.r) + Format02x(c.g) + Format02x(c.b)
  }

  /**
   * For channels in 0..255 the colour is '#' and seven characters in all,
   * lower-case hexadecimal, two digits per channel that read back as the
   * channels; so distinct colours get distinct strings.
   */
  lemma RgbToHexInRange(c: Rgb)
    requires IsChannel(c.r) && IsChannel(c.g) && IsChannel(c.b)
    ensures |RgbToHex(c)| == 7 && IsLowerHex(RgbToHex(c)[1..])
    ensures ParseHex(RgbToHex(c)[1..3]) == c.r
    ensures ParseHex(RgbToHex(c)[3..5]) == c.g
    ensures ParseHex(RgbToHex(c)[5..7]) == c.b
  {
    Slices(Format02x(c.r), Format02x(c.g), Format02x(c.b));
    ChannelRoundTrip(c.r);
    ChannelRoundTrip(c.g);
    ChannelRoundTrip(c.b);
  }

  /** Different colours in range never share a string. */
  lemma RgbToHexInjective(c: Rgb, e: Rgb)
    requires IsChannel(c.r) && IsChannel(c.g) && IsChannel(c.b)
    requires IsChannel(e.r) && IsChannel(e.g) && IsChannel(e.b)
    requires RgbToHex(c) == RgbToHex(e)
    ensures c == e
  {
    RgbToHexInRange(c);
    RgbToHexInRange(e);
  }

  /**
   * A channel outside 0..255 breaks the format: a channel above 255 takes
   * three or more digits, a negative one carries a minus sign.
   */
  lemma RgbToHexOutOfRange(c: Rgb)
    requires !IsChannel(c.r) || !IsChannel(c.g) || !IsChannel(c.b)
    ensures |RgbToHex(c)| > 7 || !IsLowerHex(RgbToHex(c)[1..])
  {
    var s := RgbToHex(c);
    var fr, fg, fb := Format02x(c.r), Format02x(c.g), Format02x(c.b);
    if |s| == 7 {
      assert |fr| == 2 && |fg| == 2 && |fb| == 2;
      assert s[1..3] == fr && s[3..5] == fg && s[5..7] == fb;
      if !IsChannel(c.r) {
        assert !IsLowerHex(fr);
      } else if !IsChannel(c.g) {
        assert !IsLowerHex(fg);
      } else {
        assert !IsLowerHex(fb);
      }
    }
  }
}
