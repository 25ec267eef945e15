/**
 * Colour formatting in src/public/start.ts: `componentToHex`, `rgbToHex` and
 * `interpolateColor`. `Number.prototype.toString(16)` is modelled for
 * integers: lowercase digits, no leading zeros, a minus sign for negatives.
 */
module Colors {
  import opened Utilities
  import opened Interpolation

  /** A lowercase hexadecimal digit, as `toString(16)` writes them. */
  predicate IsHexDigit(ch: char) {
    '0' <= ch <= '9' || 'a' <= ch <= 'f'
  }

  /** The digit for 0..15: '0'..'9', then 'a'..'f'. */
  function HexDigit(d: nat): (ch: char)
    requires d < 16
    ensures IsHexDigit(ch)
  {
    if d < 10 then (48 + d) as char else (87 + d) as char
  }

  /** The base-16 digits of `n`, most significant first. */
  function Digits(n: nat): (r: string)
    ensures 1 <= |r|
    ensures forall i :: 0 <= i < |r| ==> IsHexDigit(r[i])
    decreases n
  {
    if n < 16 then [HexDigit(n)] else Digits(n / 16) + [HexDigit(n % 16)]
  }

  /** `c.toString(16)` for an integer `c`. */
  function ToString16(c: int): string {
    if c < 0 then "-" + Digits(-c) else Digits(c)
  }

  function ComponentToHex(c: int): string {
    var hex := ToString16(c);
    if |hex| == 1 then "0" + hex else hex
  }

  function RgbToHex(r: int, g: int, b: int): string {
    "#" + ComponentToHex(r) + ComponentToHex(g) + ComponentToHex(b)
  }

  /** A colour with JavaScript-number components. */
  datatype Rgb = Rgb(r: real, g: real, b: real)

  /** Blends two colours by `(1 - t) * a + t * b` and truncates each component with `| 0`. */
  function InterpolateColor(a: Rgb, b: Rgb, t: real): string {
    RgbToHex(ToInteger(Lerp(a.r, b.r, t)), ToInteger(Lerp(a.g, b.g, t)), ToInteger(Lerp(a.b, b.b, t)))
  }

  // Reading the digits back.

  function DigitValue(ch: char): (v: nat)
    requires IsHexDigit(ch)
    ensures v < 16 && HexDigit(v) == ch
  {
    if ch <= '9' then ch as int - 48 else ch as int - 87
  }

  /** The value of a string of hex digits. */
  function ParseHex(s: string): nat
    requires forall i :: 0 <= i < |s| ==> IsHexDigit(s[i])
  {
    if |s| == 0 then 0 else ParseHex(s[..|s| - 1]) * 16 + DigitValue(s[|s| - 1])
  }

  /** Each digit reads back as itself. */
  lemma DigitValueOf(d: nat)
    requires d < 16
    ensures DigitValue(HexDigit(d)) == d
  {
  }

  /** `toString(16)` and reading the digits back are inverse. */
  lemma {:induction false} DigitsRoundTrip(n: nat)
    ensures ParseHex(Digits(n)) == n
    decreases n
  {
    var r := Digits(n);
    if n < 16 {
      DigitValueOf(n);
      assert r[..0] == [];
    } else {
      DigitsRoundTrip(n / 16);
      DigitValueOf(n % 16);
      assert r[..|r| - 1] == Digits(n / 16);
    }
  }

  /** `toString(16)` of a non-negative integer has one digit below 16 and two from 16 to 255. */
  lemma {:induction false} DigitsLength(n: nat)
    ensures n < 16 ==> |Digits(n)| == 1
    ensures 16 <= n < 256 ==> |Digits(n)| == 2
  {
    if 16 <= n < 256 {
      assert n / 16 < 16;
      assert |Digits(n / 16)| == 1;
    }
  }

  /** A leading zero does not change a hex value. */
  lemma {:induction false} LeadingZero(s: string)
    requires forall i :: 0 <= i < |s| ==> IsHexDigit(s[i])
    ensures ParseHex("0" + s) == ParseHex(s)
    decreases |s|
  {
    var z := "0" + s;
    if |s| == 0 {
      DigitValueOf(0);
      assert z[..0] == [];
    } else {
      assert z[..|z| - 1] == "0" + s[..|s| - 1];
      LeadingZero(s[..|s| - 1]);
    }
  }

  /**
   * For a colour component 0..255, `componentToHex` gives exactly two
   * lowercase hex digits that read back as the component.
   */
  lemma {:induction false} ComponentToHexSpec(c: int)
    requires 0 <= c < 256
    ensures |ComponentToHex(c)| == 2
    ensures forall i :: 0 <= i < 2 ==> IsHexDigit(ComponentToHex(c)[i])
    ensures ParseHex(ComponentToHex(c)) == c
  {
    DigitsLength(c);
    DigitsRoundTrip(c);
    if c < 16 {
      LeadingZero(Digits(c));
    }
  }

  /** `rgbToHex` of three components 0..255 is "#" and six digits, two per component in order. */
  lemma {:induction false} RgbToHexSpec(r: int, g: int, b: int)
    requires 0 <= r < 256 && 0 <= g < 256 && 0 <= b < 256
    ensures |RgbToHex(r, g, b)| == 7 && RgbToHex(r, g, b)[0] == '#'
    ensures RgbToHex(r, g, b)[1..3] == ComponentToHex(r)
    ensures RgbToHex(r, g, b)[3..5] == ComponentToHex(g)
    ensures RgbToHex(r, g, b)[5..7] == ComponentToHex(b)
  {
    ComponentToHexSpec(r);
    ComponentToHexSpec(g);
    ComponentToHexSpec(b);
    Slices("#", ComponentToHex(r), ComponentToHex(g), ComponentToHex(b));
  }

  lemma Slices(p: string, x: string, y: string, z: string)
    requires |p| == 1 && |x| == 2 && |y| == 2 && |z| == 2
    ensures |p + x + y + z| == 7 && (p + x + y + z)[0] == p[0]
    ensures (p + x + y + z)[1..3] == x && (p + x + y + z)[3..5] == y && (p + x + y + z)[5..7] == z
  {
    var s := p + x + y + z;
    assert s[1..3] == x by {
      assert s[1] == x[0] && s[2] == x[1];
    }
    assert s[3..5] == y by {
      assert s[3] == y[0] && s[4] == y[1];
    }
    assert s[5..7] == z by {
      assert s[5] == z[0] && s[6] == z[1];
    }
  }

  /** `v | 0` for a number in [0, 256) is its integer part, in 0..255. */
  lemma TruncateComponent(v: real)
    requires 0.0 <= v < 256.0
    ensures 0 <= ToInteger(v) < 256 && ToInteger(v) == Trunc(v)
  {
  }

  /** One blended component of two components in [0, 255], for `t` in [0, 1], truncates into 0..255. */
  lemma {:induction false} BlendedComponent(a: real, b: real, t: real)
    requires 0.0 <= a <= 255.0 && 0.0 <= b <= 255.0 && 0.0 <= t <= 1.0
    ensures 0 <= ToInteger(Lerp(a, b, t)) < 256
  {
    LerpBetween(a, b, t);
    TruncateComponent(Lerp(a, b, t));
  }

  /**
   * Blending two colours with components in [0, 255] by `t` in [0, 1] gives
   * "#rrggbb" whose digit pairs read back as the truncated blends of the
   * red, green and blue components.
   */
  lemma {:induction false} InterpolateColorWellFormed(a: Rgb, b: Rgb, t: real)
    requires 0.0 <= a.r <= 255.0 && 0.0 <= a.g <= 255.0 && 0.0 <= a.b <= 255.0
    requires 0.0 <= b.r <= 255.0 && 0.0 <= b.g <= 255.0 && 0.0 <= b.b <= 255.0
    requires 0.0 <= t <= 1.0
    ensures |InterpolateColor(a, b, t)| == 7 && InterpolateColor(a, b, t)[0] == '#'
    ensures forall i :: 1 <= i < 7 ==> IsHexDigit(InterpolateColor(a, b, t)[i])
    ensures ParseHex(InterpolateColor(a, b, t)[1..3]) == ToInteger(Lerp(a.r, b.r, t))
    ensures ParseHex(InterpolateColor(a, b, t)[3..5]) == ToInteger(Lerp(a.g, b.g, t))
    ensures ParseHex(InterpolateColor(a, b, t)[5..7]) == ToInteger(Lerp(a.b, b.b, t))
  {
    var r, g, bl := ToInteger(Lerp(a.r, b.r, t)), ToInteger(Lerp(a.g, b.g, t)), ToInteger(Lerp(a.b, b.b, t));
    BlendedComponent(a.r, b.r, t);
    BlendedComponent(a.g, b.g, t);
    BlendedComponent(a.b, b.b, t);
    ComponentToHexSpec(r);
    ComponentToHexSpec(g);
    ComponentToHexSpec(bl);
    RgbToHexSpec(r, g, bl);
    var s := InterpolateColor(a, b, t);
    forall i | 1 <= i < 7
      ensures IsHexDigit(s[i])
    {
      if i < 3 {
        assert s[i] == s[1..3][i - 1];
      } else if i < 5 {
        assert s[i] == s[3..5][i - 3];
      } else {
        assert s[i] == s[5..7][i - 5];
      }
    }
  }
}
