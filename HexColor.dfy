/**
 * `HexColor` (2-D boids) and `Utils.Color.Hex` (3-D boids): the colour
 * `"rrggbb"` becomes `Color3(r, g, b)` with each channel
 * `parseInt(pair, 16) / 255`.  `parseInt` is modelled as ECMAScript defines
 * it for radix 16: leading white space is skipped, one sign is taken, a
 * `0x`/`0X` prefix is dropped, and the longest run of hex digits that follows
 * is read; no digit at all gives NaN.  `substring` clamps its bounds to the
 * string, so a short colour string yields short (possibly empty) pairs.
 */
module HexColor {
  /** A JavaScript number as far as these operations produce one. */
  datatype Number = NaN | Finite(value: real)

  datatype Color3 = Color3(r: Number, g: Number, b: Number)

  /** WhiteSpace and LineTerminator code points of ECMAScript. */
  predicate IsWhiteSpace(c: char) {
    var n := c as int;
    n == 0x09 || n == 0x0A || n == 0x0B || n == 0x0C || n == 0x0D || n == 0x20 || n == 0xA0
    || n == 0x1680 || (0x2000 <= n <= 0x200A) || n == 0x2028 || n == 0x2029 || n == 0x202F
    || n == 0x205F || n == 0x3000 || n == 0xFEFF
  }

  predicate IsHexDigit(c: char) {
    ('0' <= c <= '9') || ('a' <= c <= 'f') || ('A' <= c <= 'F')
  }

  function DigitValue(c: char): (d: nat)
    requires IsHexDigit(c)
    ensures d < 16
  {
    if '0' <= c <= '9' then c as int - '0' as int
    else if 'a' <= c <= 'f' then c as int - 'a' as int + 10
    else c as int - 'A' as int + 10
  }

  predicate AllHexDigits(s: string) {
    forall k | 0 <= k < |s| :: IsHexDigit(s[k])
  }

  /** The big-endian value of a run of hex digits. */
  function HexValue(s: string): (v: nat)
    requires AllHexDigits(s)
    ensures v < Pow16(|s|)
  {
    if |s| == 0 then 0
    else
      var init := s[..|s| - 1];
      assert AllHexDigits(init) by {
        forall k | 0 <= k < |init| ensures IsHexDigit(init[k]) { assert init[k] == s[k]; }
      }
      HexValue(init) * 16 + DigitValue(s[|s| - 1])
  }

  function Pow16(n: nat): (p: nat)
    ensures 0 < p
  {
    if n == 0 then 1 else 16 * Pow16(n - 1)
  }

  function TrimStart(s: string): (t: string)
    ensures |t| <= |s|
  {
    if |s| > 0 && IsWhiteSpace(s[0]) then TrimStart(s[1..]) else s
  }

  /** The longest prefix of `s` made of hex digits. */
  function DigitRun(s: string): (z: string)
    ensures |z| <= |s| && AllHexDigits(z)
  {
    if |s| > 0 && IsHexDigit(s[0]) then [s[0]] + DigitRun(s[1..]) else []
  }

  /** `parseInt(s, 16)`. */
  function ParseHex(s: string): Number {
    var t := TrimStart(s);
    var negative := |t| > 0 && t[0] == '-';
    var u := if |t| > 0 && (t[0] == '-' || t[0] == '+') then t[1..] else t;
    var w := if |u| >= 2 && u[0] == '0' && (u[1] == 'x' || u[1] == 'X') then u[2..] else u;
    var z := DigitRun(w);
    if |z| == 0 then NaN
    else if negative then Finite(-(HexValue(z) as real))
    else Finite(HexValue(z) as real)
  }

  /** `String.prototype.substring(start, end)` for `start <= end`. */
  function Substring(s: string, start: nat, end: nat): (r: string)
    requires start <= end
    ensures |r| <= end - start
  {
    var e := if end < |s| then end else |s|;
    var b := if start < e then start else e;
    s[b..e]
  }

  function Channel(pair: string): Number {
    match ParseHex(pair)
    case NaN => NaN
    case Finite(v) => Finite(v / 255.0)
  }

  /** `HexColor(hex)`. */
  function Hex(hex: string): Color3 {
    Color3(Channel(Substring(hex, 0, 2)), Channel(Substring(hex, 2, 4)), Channel(Substring(hex, 4, 6)))
  }

  /** A two-digit hex pair `n` in `0..255`, lower case. */
  function ByteToHex(n: nat): (s: string)
    requires n < 256
    ensures |s| == 2 && AllHexDigits(s)
  {
    [HexDigit(n / 16), HexDigit(n % 16)]
  }

  function HexDigit(d: nat): (c: char)
    requires d < 16
    ensures IsHexDigit(c) && DigitValue(c) == d && !IsWhiteSpace(c)
  {
    if d < 10 then ('0' as int + d) as char else ('a' as int + d - 10) as char
  }

  function ColorToHex(r: nat, g: nat, b: nat): (s: string)
    requires r < 256 && g < 256 && b < 256
    ensures |s| == 6
  {
    ByteToHex(r) + ByteToHex(g) + ByteToHex(b)
  }

  lemma HexDigitIsPlain(c: char)
    requires IsHexDigit(c)
    ensures !IsWhiteSpace(c) && c != '-' && c != '+' && c != 'x' && c != 'X'
  {
  }

  /** Two hex digits parse to their value, which lies in `0..255`. */
  lemma ParsePair(pair: string)
    requires |pair| == 2 && AllHexDigits(pair)
    ensures ParseHex(pair) == Finite(HexValue(pair) as real)
    ensures HexValue(pair) == DigitValue(pair[0]) * 16 + DigitValue(pair[1]) <= 255
  {
    HexDigitIsPlain(pair[0]);
    HexDigitIsPlain(pair[1]);
    assert TrimStart(pair) == pair;
    var last := pair[1..];
    assert IsHexDigit(last[0]);
    assert DigitRun(last[1..]) == [];
    assert DigitRun(last) == last;
    assert DigitRun(pair) == [pair[0]] + last == pair;
    var first := pair[..1];
    assert first[..0] == [];
    assert HexValue(first) == DigitValue(pair[0]);
  }

  lemma ChannelOfPair(pair: string)
    requires |pair| == 2 && AllHexDigits(pair)
    ensures Channel(pair) == Finite(HexValue(pair) as real / 255.0) && InUnit(Channel(pair))
  {
    ParsePair(pair);
    var v := HexValue(pair);
    assert ParseHex(pair) == Finite(v as real);
    assert Channel(pair) == Finite(v as real / 255.0);
  }

  lemma PairsOfDigits(hex: string)
    requires |hex| == 6 && AllHexDigits(hex)
    ensures AllHexDigits(hex[0..2]) && AllHexDigits(hex[2..4]) && AllHexDigits(hex[4..6])
  {
    forall k | 0 <= k < 2
      ensures IsHexDigit(hex[0..2][k]) && IsHexDigit(hex[2..4][k]) && IsHexDigit(hex[4..6][k])
    {
      assert hex[0..2][k] == hex[k] && hex[2..4][k] == hex[k + 2] && hex[4..6][k] == hex[k + 4];
    }
  }

  /** Six hex digits give three channels `pair / 255`, each in `[0, 1]`. */
  lemma HexOfDigits(hex: string)
    requires |hex| == 6 && AllHexDigits(hex)
    ensures Hex(hex) == Color3(Finite(HexValue(hex[0..2]) as real / 255.0),
                               Finite(HexValue(hex[2..4]) as real / 255.0),
                               Finite(HexValue(hex[4..6]) as real / 255.0))
    ensures InUnit(Hex(hex).r) && InUnit(Hex(hex).g) && InUnit(Hex(hex).b)
  {
    PairsOfDigits(hex);
    assert Substring(hex, 0, 2) == hex[0..2];
    assert Substring(hex, 2, 4) == hex[2..4];
    assert Substring(hex, 4, 6) == hex[4..6];
    ChannelOfPair(hex[0..2]);
    ChannelOfPair(hex[2..4]);
    ChannelOfPair(hex[4..6]);
  }

  predicate InUnit(n: Number) {
    n.Finite? && 0.0 <= n.value <= 1.0
  }

  /**
   * Six copies of one hex digit `c` give the grey `17 c / 255` in every
   * channel: `"ffffff"` is white `(1, 1, 1)` and `"000000"` black `(0, 0, 0)`.
   */
  lemma Uniform(hex: string, c: char)
    requires |hex| == 6 && IsHexDigit(c) && forall k | 0 <= k < 6 :: hex[k] == c
    ensures Hex(hex).r == Hex(hex).g == Hex(hex).b == Finite((17 * DigitValue(c)) as real / 255.0)
    ensures c == 'f' ==> Hex(hex) == Color3(Finite(1.0), Finite(1.0), Finite(1.0))
    ensures c == '0' ==> Hex(hex) == Color3(Finite(0.0), Finite(0.0), Finite(0.0))
  {
    var pair := [c, c];
    assert Substring(hex, 0, 2) == pair && Substring(hex, 2, 4) == pair && Substring(hex, 4, 6) == pair;
    ParsePair(pair);
    ChannelOfPair(pair);
  }

  /** Writing three bytes as `rrggbb` and parsing the colour back gives `byte / 255` per channel. */
  lemma RoundTrip(r: nat, g: nat, b: nat)
    requires r < 256 && g < 256 && b < 256
    ensures Hex(ColorToHex(r, g, b))
         == Color3(Finite(r as real / 255.0), Finite(g as real / 255.0), Finite(b as real / 255.0))
  {
    var s := ColorToHex(r, g, b);
    assert Substring(s, 0, 2) == ByteToHex(r);
    assert Substring(s, 2, 4) == ByteToHex(g);
    assert Substring(s, 4, 6) == ByteToHex(b);
    PairRoundTrip(r);
    PairRoundTrip(g);
    PairRoundTrip(b);
  }

  /** One byte written as two digits and parsed back gives `byte / 255`. */
  lemma PairRoundTrip(n: nat)
    requires n < 256
    ensures HexValue(ByteToHex(n)) == n
    ensures Channel(ByteToHex(n)) == Finite(n as real / 255.0)
  {
    var s := ByteToHex(n);
    ParsePair(s);
    ChannelOfPair(s);
  }

  /**
   * Whatever the input, a channel that is a number lies in `[-15/255, 1]`:
   * a pair holds at most two digits, or a sign and one digit.
   */
  lemma ChannelBounds(pair: string)
    requires |pair| <= 2
    ensures Channel(pair).Finite? ==> -15.0 / 255.0 <= Channel(pair).value <= 1.0
  {
    var t := TrimStart(pair);
    var u := if |t| > 0 && (t[0] == '-' || t[0] == '+') then t[1..] else t;
    var w := if |u| >= 2 && u[0] == '0' && (u[1] == 'x' || u[1] == 'X') then u[2..] else u;
    var z := DigitRun(w);
    if |z| > 0 {
      if |t| > 0 && (t[0] == '-' || t[0] == '+') {
        assert |z| <= 1;
        assert HexValue(z) < 16;
      } else {
        assert |z| <= 2;
        Pow16Monotone(|z|, 2);
        assert HexValue(z) < 256;
      }
    }
  }

  /** Every channel of every colour string that is a number lies in `[-15/255, 1]`. */
  lemma HexBounds(hex: string)
    ensures Hex(hex).r.Finite? ==> -15.0 / 255.0 <= Hex(hex).r.value <= 1.0
    ensures Hex(hex).g.Finite? ==> -15.0 / 255.0 <= Hex(hex).g.value <= 1.0
    ensures Hex(hex).b.Finite? ==> -15.0 / 255.0 <= Hex(hex).b.value <= 1.0
  {
    ChannelBounds(Substring(hex, 0, 2));
    ChannelBounds(Substring(hex, 2, 4));
    ChannelBounds(Substring(hex, 4, 6));
  }

  /** A pair that starts with anything but white space, a sign or a hex digit is NaN. */
  lemma NotANumber(pair: string)
    requires |pair| > 0 && !IsHexDigit(pair[0]) && !IsWhiteSpace(pair[0]) && pair[0] != '-' && pair[0] != '+'
    ensures Channel(pair) == NaN
  {
    assert TrimStart(pair) == pair;
    assert pair[0] != '0';
    assert DigitRun(pair) == [];
  }

  lemma Pow16Monotone(m: nat, n: nat)
    requires m <= n
    ensures Pow16(m) <= Pow16(n)
  {
    if m < n { Pow16Monotone(m, n - 1); }
  }

  /** A colour string of at most four characters has no blue channel. */
  lemma ShortInput(hex: string)
    requires |hex| <= 4
    ensures Hex(hex).b == NaN
  {
    assert Substring(hex, 4, 6) == [];
  }
}
