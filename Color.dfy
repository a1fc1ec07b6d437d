// Colour darkening of src/scripts/util/color.ts: three hex channels are read
// with parseInt(_, 16), scaled by (100 - amount) percent, floored, capped at
// 255 and written back as two lower-case hex digits each.

module Colors {

  /** What parseInt(_, 16) yields: an integer, or NaN when no digit is found. */
  datatype Parsed = Num(n: int) | NaN

  predicate IsHexDigit(c: char)
  {
    '0' <= c <= '9' || 'a' <= c <= 'f' || 'A' <= c <= 'F'
  }

  predicate IsLowerHexDigit(c: char)
  {
    '0' <= c <= '9' || 'a' <= c <= 'f'
  }

  function DigitValue(c: char): (d: nat)
    requires IsHexDigit(c)
    ensures d < 16
  {
    if '0' <= c <= '9' then c as int - '0' as int
    else if 'a' <= c <= 'f' then c as int - 'a' as int + 10
    else c as int - 'A' as int + 10
  }

  /** The digit Number.prototype.toString(16) writes for d. */
  function HexChar(d: nat): (c: char)
    requires d < 16
    ensures IsLowerHexDigit(c) && DigitValue(c) == d
  {
    if d < 10 then ('0' as int + d) as char else ('a' as int + d - 10) as char
  }

  /** The lower-case form of a hex digit. */
  function LowerHex(c: char): (l: char)
    requires IsHexDigit(c)
    ensures IsLowerHexDigit(l) && DigitValue(l) == DigitValue(c)
  {
    HexChar(DigitValue(c))
  }

  /** The white space and line terminators that parseInt skips before the number. */
  predicate IsJsSpace(c: char)
  {
    var u := c as int;
    || 0x09 <= u <= 0x0D || u == 0x20 || u == 0xA0 || u == 0x1680
    || 0x2000 <= u <= 0x200A || u == 0x2028 || u == 0x2029 || u == 0x202F
    || u == 0x205F || u == 0x3000 || u == 0xFEFF
  }

  /** The string without its leading white space. */
  function TrimStart(s: string): string
  {
    if |s| > 0 && IsJsSpace(s[0]) then TrimStart(s[1..]) else s
  }

  /**
   * The longest run of hex digits at the start of v, read most significant
   * first onto value; count is how many digits have been read so far. NaN
   * when no digit is read at all.
   */
  function ScanDigits(v: string, value: nat, count: nat): Parsed
  {
    if |v| > 0 && IsHexDigit(v[0]) then ScanDigits(v[1..], 16 * value + DigitValue(v[0]), count + 1)
    else if count == 0 then NaN
    else Num(value)
  }

  /**
   * parseInt(s, 16): skip leading white space, take an optional sign and an
   * optional 0x/0X prefix, then the longest run of hex digits; NaN when that
   * run is empty.
   */
  function ParseHex(s: string): Parsed
  {
    ParseSigned(TrimStart(s))
  }

  /** parseInt after the white space: an optional sign, then the magnitude. */
  function ParseSigned(t: string): Parsed
  {
    if |t| > 0 && t[0] == '-' then Negate(ParseMagnitude(t[1..]))
    else if |t| > 0 && t[0] == '+' then ParseMagnitude(t[1..])
    else ParseMagnitude(t)
  }

  function Negate(p: Parsed): Parsed
  {
    match p
    case NaN => NaN
    case Num(m) => Num(-m)
  }

  /** An optional 0x/0X prefix, then the longest run of hex digits. */
  function ParseMagnitude(u: string): Parsed
  {
    if |u| >= 2 && u[0] == '0' && (u[1] == 'x' || u[1] == 'X') then ParseDigits(u[2..])
    else ParseDigits(u)
  }

  /** The value of the longest run of hex digits at the start of v; NaN when there is none. */
  function ParseDigits(v: string): Parsed
  {
    ScanDigits(v, 0, 0)
  }

  /** String.prototype.substring(start, end) for start <= end: both ends are clipped to the length. */
  function Substring(s: string, start: nat, end: nat): (t: string)
    requires start <= end
    ensures |s| >= end ==> t == s[start..end]
  {
    var i := if start < |s| then start else |s|;
    var j := if end < |s| then end else |s|;
    s[i..j]
  }

  /** floor(c * (100 - amount) / 100): c scaled to (100 - amount) percent, rounded down. */
  function Scaled(c: int, amount: real): int
  {
    ((c as real) * (100.0 - amount) / 100.0).Floor
  }

  /**
   * One channel after darkening: the scaled value capped at 255. A NaN channel
   * survives the floor and fails the test "< 255", so it becomes 255.
   */
  function Scale(p: Parsed, amount: real): (r: int)
    ensures r <= 255
    ensures p.NaN? ==> r == 255
    ensures p.Num? && 0 <= p.n && 0.0 <= amount <= 100.0 ==> 0 <= r <= p.n
  {
    match p
    case NaN => 255
    case Num(c) =>
      if c >= 0 && 0.0 <= amount <= 100.0 then
        ScaledWithin(c, amount);
        if Scaled(c, amount) < 255 then Scaled(c, amount) else 255
      else
        if Scaled(c, amount) < 255 then Scaled(c, amount) else 255
  }

  /** For a non-negative channel and a percentage, the scaled value stays in [0, c]. */
  lemma ScaledWithin(c: int, amount: real)
    requires c >= 0 && 0.0 <= amount <= 100.0
    ensures 0 <= Scaled(c, amount) <= c
  {
    var f := 100.0 - amount;
    MultiplyBetween(c as real, f, 100.0);
    assert 0.0 <= (c as real) * f / 100.0 <= c as real;
  }

  /** A larger percentage never gives a larger scaled value. */
  lemma ScaledMonotone(c: int, a: real, b: real)
    requires c >= 0 && a <= b <= 100.0
    ensures Scaled(c, b) <= Scaled(c, a)
  {
    MultiplyBetween(c as real, 100.0 - b, 100.0 - a);
    var x := (c as real) * (100.0 - b) / 100.0;
    var y := (c as real) * (100.0 - a) / 100.0;
    assert x <= y;
  }

  /** Scaling by 0 percent keeps the value; by 100 percent gives 0. */
  lemma ScaledEnds(c: int)
    ensures Scaled(c, 0.0) == c
    ensures Scaled(c, 100.0) == 0
  {
    assert (c as real) * (100.0 - 0.0) / 100.0 == c as real;
    assert (c as real) * (100.0 - 100.0) / 100.0 == 0.0;
  }

  /** For x >= 0 and 0 <= y <= z: 0 <= x * y <= x * z. */
  lemma MultiplyBetween(x: real, y: real, z: real)
    requires x >= 0.0 && 0.0 <= y <= z
    ensures 0.0 <= x * y <= x * z
  {
    assert x * z - x * y == x * (z - y);
  }

  /** Number.prototype.toString(16) of an integer: lower-case digits, a leading '-' when negative. */
  function ToHex(n: int): (s: string)
    decreases if n < 0 then -n + 1 else n
  {
    if n < 0 then "-" + ToHex(-n)
    else if n < 16 then [HexChar(n)]
    else ToHex(n / 16) + [HexChar(n % 16)]
  }

  /** A string of one character is padded with a leading "0". */
  function Pad(s: string): string
  {
    if |s| == 1 then "0" + s else s
  }

  /** The two hex digits of a byte. */
  function Byte(n: int): (s: string)
    requires 0 <= n <= 255
  {
    [HexChar(n / 16), HexChar(n % 16)]
  }

  /** Channel i (0 = red, 1 = green, 2 = blue) as read: the digits at positions 1 + 2i and 2 + 2i. */
  function ReadChannel(color: string, i: nat): Parsed
    requires i < 3
  {
    ParseHex(Substring(color, 1 + 2 * i, 3 + 2 * i))
  }

  /** Channel i after darkening. */
  function Channel(color: string, i: nat, amount: real): int
    requires i < 3
  {
    Scale(ReadChannel(color, i), amount)
  }

  /** Color.darken */
  function Darken(color: string, amount: real): string
  {
    "#" + Pad(ToHex(Channel(color, 0, amount)))
        + Pad(ToHex(Channel(color, 1, amount)))
        + Pad(ToHex(Channel(color, 2, amount)))
  }

  /**
   * A colour whose three channels are written as two hex digits each after the
   * first character. The first character is one UTF-16 code unit (it lies in
   * the Basic Multilingual Plane), so that the positions substring counts in
   * code units are the positions of this sequence of characters.
   */
  predicate WellFormed(color: string)
  {
    && |color| >= 7
    && color[0] as int < 0x1_0000
    && IsHexDigit(color[1]) && IsHexDigit(color[2]) && IsHexDigit(color[3])
    && IsHexDigit(color[4]) && IsHexDigit(color[5]) && IsHexDigit(color[6])
  }

  /** "#" followed by six lower-case hex digits. */
  predicate IsLowerHexColor(s: string)
  {
    |s| == 7 && s[0] == '#' && forall i :: 1 <= i < 7 ==> IsLowerHexDigit(s[i])
  }

  /** A byte formats as two lower-case hex digits, zero-padded below 16. */
  lemma {:induction false} FormatByte(n: int)
    requires 0 <= n <= 255
    ensures Pad(ToHex(n)) == Byte(n)
  {
    if n < 16 {
      assert ToHex(n) == [HexChar(n)];
      assert n / 16 == 0 && n % 16 == n;
    } else {
      assert ToHex(n / 16) == [HexChar(n / 16)];
    }
  }

  /** Parsing two hex digits gives their value. */
  lemma ParseTwoDigits(s: string)
    requires |s| == 2 && IsHexDigit(s[0]) && IsHexDigit(s[1])
    ensures ParseHex(s) == Num(16 * DigitValue(s[0]) + DigitValue(s[1]))
  {
    assert !IsJsSpace(s[0]) && TrimStart(s) == s;
    assert s[0] != '-' && s[0] != '+' && s[1] != 'x' && s[1] != 'X';
    var hi := DigitValue(s[0]);
    assert ScanDigits(s[1..][1..], 16 * hi + DigitValue(s[1]), 2) == Num(16 * hi + DigitValue(s[1]));
    assert ScanDigits(s[1..], hi, 1) == Num(16 * hi + DigitValue(s[1]));
    assert ScanDigits(s, 0, 0) == ScanDigits(s[1..], hi, 1);
  }

  /** The two digits of a byte parse to their place values. */
  lemma ParseByteDigits(n: int)
    requires 0 <= n <= 255
    ensures ParseHex(Byte(n)) == Num(16 * (n / 16) + n % 16)
  {
    ParseTwoDigits([HexChar(n / 16), HexChar(n % 16)]);
  }

  /** Parsing a formatted byte gives the byte back. */
  lemma ByteRoundTrip(n: int)
    requires 0 <= n <= 255
    ensures ParseHex(Byte(n)) == Num(n)
  {
    ParseByteDigits(n);
    assert 16 * (n / 16) + n % 16 == n;
  }

  /** A channel in [0, 255] is written as two lower-case digits that parse back to it. */
  lemma FormatChannel(n: int)
    requires 0 <= n <= 255
    ensures |Pad(ToHex(n))| == 2
    ensures IsLowerHexDigit(Pad(ToHex(n))[0]) && IsLowerHexDigit(Pad(ToHex(n))[1])
    ensures ParseHex(Pad(ToHex(n))) == Num(n)
  {
    FormatByte(n);
    ByteRoundTrip(n);
  }

  /** The channel read from a well-formed colour is the value of its two digits. */
  lemma WellFormedChannel(color: string, i: nat)
    requires WellFormed(color) && i < 3
    ensures ReadChannel(color, i) == Num(16 * DigitValue(color[1 + 2 * i]) + DigitValue(color[2 + 2 * i]))
  {
    var s := Substring(color, 1 + 2 * i, 3 + 2 * i);
    assert s == color[1 + 2 * i..3 + 2 * i];
    ParseTwoDigits(s);
  }

  /** A channel whose two digits are the digits of a byte reads back as that byte. */
  lemma ReadByteAt(d: string, i: nat, n: int)
    requires i < 3 && |d| >= 7 && 0 <= n <= 255
    requires d[1 + 2 * i..3 + 2 * i] == Byte(n)
    ensures ReadChannel(d, i) == Num(n)
  {
    ByteRoundTrip(n);
  }

  /** When its three channels are bytes, the darkened colour is "#" followed by the three formatted bytes. */
  lemma DarkenBytes(color: string, amount: real)
    requires forall i :: 0 <= i < 3 ==> 0 <= Channel(color, i, amount) <= 255
    ensures Darken(color, amount)
      == "#" + Byte(Channel(color, 0, amount)) + Byte(Channel(color, 1, amount)) + Byte(Channel(color, 2, amount))
  {
    FormatByte(Channel(color, 0, amount));
    FormatByte(Channel(color, 1, amount));
    FormatByte(Channel(color, 2, amount));
  }

  /** The darkened colour, written with the values of its three channels. */
  lemma DarkenOfChannels(color: string, amount: real, r: int, g: int, b: int)
    requires 0 <= r <= 255 && 0 <= g <= 255 && 0 <= b <= 255
    requires Channel(color, 0, amount) == r && Channel(color, 1, amount) == g && Channel(color, 2, amount) == b
    ensures Darken(color, amount) == "#" + Byte(r) + Byte(g) + Byte(b)
  {
    DarkenBytes(color, amount);
  }

  /**
   * Reading channel i of a darkened colour back gives exactly the computed
   * channel, when the three channels are bytes.
   */
  lemma DarkenRoundTrip(color: string, amount: real, i: nat)
    requires i < 3
    requires forall j :: 0 <= j < 3 ==> 0 <= Channel(color, j, amount) <= 255
    ensures ReadChannel(Darken(color, amount), i) == Num(Channel(color, i, amount))
  {
    DarkenBytes(color, amount);
    ReadFormattedBytes(Channel(color, 0, amount), Channel(color, 1, amount), Channel(color, 2, amount), i);
  }

  /** Channel i of "#" and three formatted bytes reads back as byte i. */
  lemma ReadFormattedBytes(r: int, g: int, b: int, i: nat)
    requires 0 <= r <= 255 && 0 <= g <= 255 && 0 <= b <= 255 && i < 3
    ensures ReadChannel("#" + Byte(r) + Byte(g) + Byte(b), i) == Num([r, g, b][i])
  {
    var d := "#" + Byte(r) + Byte(g) + Byte(b);
    if i == 0 {
      assert d[1..3] == Byte(r);
    } else if i == 1 {
      assert d[3..5] == Byte(g);
    } else {
      assert d[5..7] == Byte(b);
    }
    ReadByteAt(d, i, [r, g, b][i]);
  }

  /** When its three channels are bytes, the darkened colour is "#" and six lower-case hex digits. */
  lemma DarkenIsLowerHex(color: string, amount: real)
    requires forall i :: 0 <= i < 3 ==> 0 <= Channel(color, i, amount) <= 255
    ensures IsLowerHexColor(Darken(color, amount))
  {
    DarkenBytes(color, amount);
    BytesAreLowerHex(Channel(color, 0, amount), Channel(color, 1, amount), Channel(color, 2, amount));
  }

  /** "#" and three formatted bytes is "#" and six lower-case hex digits. */
  lemma BytesAreLowerHex(r: int, g: int, b: int)
    requires 0 <= r <= 255 && 0 <= g <= 255 && 0 <= b <= 255
    ensures IsLowerHexColor("#" + Byte(r) + Byte(g) + Byte(b))
  {
  }

  /** A well-formed colour darkened by a percentage in [0, 100] has three byte channels. */
  lemma WellFormedChannelsAreBytes(color: string, amount: real)
    requires WellFormed(color) && 0.0 <= amount <= 100.0
    ensures forall i :: 0 <= i < 3 ==> 0 <= Channel(color, i, amount) <= 255
  {
    forall i | 0 <= i < 3
      ensures 0 <= Channel(color, i, amount) <= 255
    {
      WellFormedChannel(color, i);
    }
  }

  /** Darkening a well-formed colour by a percentage gives "#" and six lower-case hex digits. */
  lemma DarkenFormat(color: string, amount: real)
    requires WellFormed(color) && 0.0 <= amount <= 100.0
    ensures IsLowerHexColor(Darken(color, amount))
  {
    WellFormedChannelsAreBytes(color, amount);
    DarkenIsLowerHex(color, amount);
  }

  /** The byte written as two hex digits formats as those digits in lower case. */
  lemma ByteOfDigits(h: char, l: char)
    requires IsHexDigit(h) && IsHexDigit(l)
    ensures Byte(16 * DigitValue(h) + DigitValue(l)) == [LowerHex(h), LowerHex(l)]
  {
    DigitPlaces(DigitValue(h), DigitValue(l));
  }

  /** The byte 16 * hi + lo has hi sixteens and remainder lo. */
  lemma DigitPlaces(hi: nat, lo: nat)
    requires hi < 16 && lo < 16
    ensures (16 * hi + lo) / 16 == hi && (16 * hi + lo) % 16 == lo
  {
  }

  /** Darkening by 0 keeps a channel of a well-formed colour. */
  lemma ChannelByZero(color: string, i: nat)
    requires WellFormed(color) && i < 3
    ensures Channel(color, i, 0.0) == 16 * DigitValue(color[1 + 2 * i]) + DigitValue(color[2 + 2 * i])
  {
    WellFormedChannel(color, i);
    ScaledEnds(16 * DigitValue(color[1 + 2 * i]) + DigitValue(color[2 + 2 * i]));
  }

  /** Darkening a well-formed colour by 0 writes back the value of each pair of digits. */
  lemma DarkenByZeroBytes(color: string)
    requires WellFormed(color)
    ensures Darken(color, 0.0) == "#" + Byte(16 * DigitValue(color[1]) + DigitValue(color[2]))
                                      + Byte(16 * DigitValue(color[3]) + DigitValue(color[4]))
                                      + Byte(16 * DigitValue(color[5]) + DigitValue(color[6]))
  {
    ChannelByZero(color, 0);
    ChannelByZero(color, 1);
    ChannelByZero(color, 2);
    DarkenOfChannels(color, 0.0, 16 * DigitValue(color[1]) + DigitValue(color[2]),
                     16 * DigitValue(color[3]) + DigitValue(color[4]), 16 * DigitValue(color[5]) + DigitValue(color[6]));
  }

  /** Three pairs of hex digits, each read as a byte and formatted again, come back in lower case. */
  lemma FormatDigitPairs(r1: char, r2: char, g1: char, g2: char, b1: char, b2: char)
    requires IsHexDigit(r1) && IsHexDigit(r2) && IsHexDigit(g1)
    requires IsHexDigit(g2) && IsHexDigit(b1) && IsHexDigit(b2)
    ensures "#" + Byte(16 * DigitValue(r1) + DigitValue(r2))
                + Byte(16 * DigitValue(g1) + DigitValue(g2))
                + Byte(16 * DigitValue(b1) + DigitValue(b2))
         == ['#', LowerHex(r1), LowerHex(r2), LowerHex(g1), LowerHex(g2), LowerHex(b1), LowerHex(b2)]
  {
    ByteOfDigits(r1, r2);
    ByteOfDigits(g1, g2);
    ByteOfDigits(b1, b2);
    JoinPairs([LowerHex(r1), LowerHex(r2)], [LowerHex(g1), LowerHex(g2)], [LowerHex(b1), LowerHex(b2)]);
  }

  /** "#" followed by three strings of two characters each, written out. */
  lemma JoinPairs(p: string, q: string, r: string)
    requires |p| == 2 && |q| == 2 && |r| == 2
    ensures "#" + p + q + r == ['#', p[0], p[1], q[0], q[1], r[0], r[1]]
  {
  }

  /** Darkening by 0 keeps every channel: the result is the input's digits in lower case. */
  lemma DarkenByZero(color: string)
    requires WellFormed(color)
    ensures Darken(color, 0.0) == ['#', LowerHex(color[1]), LowerHex(color[2]), LowerHex(color[3]),
                                   LowerHex(color[4]), LowerHex(color[5]), LowerHex(color[6])]
  {
    DarkenByZeroBytes(color);
    FormatDigitPairs(color[1], color[2], color[3], color[4], color[5], color[6]);
  }

  /** Darkening a well-formed colour by 100 gives black. */
  lemma DarkenByHundred(color: string)
    requires WellFormed(color)
    ensures Darken(color, 100.0) == "#000000"
  {
    forall i | 0 <= i < 3
      ensures Channel(color, i, 100.0) == 0
    {
      WellFormedChannel(color, i);
      ScaledEnds(16 * DigitValue(color[1 + 2 * i]) + DigitValue(color[2 + 2 * i]));
    }
    FormatByte(0);
  }

  /**
   * Darkening is monotone: a larger percentage never gives a larger channel,
   * and no percentage in [0, 100] raises a channel above the input.
   */
  lemma DarkenMonotone(color: string, a: real, b: real, i: nat)
    requires WellFormed(color) && 0.0 <= a <= b <= 100.0 && i < 3
    ensures Channel(color, i, b) <= Channel(color, i, a)
    ensures Channel(color, i, a) <= 16 * DigitValue(color[1 + 2 * i]) + DigitValue(color[2 + 2 * i])
  {
    WellFormedChannel(color, i);
    var c := 16 * DigitValue(color[1 + 2 * i]) + DigitValue(color[2 + 2 * i]);
    ScaledMonotone(c, a, b);
  }

  /**
   * A colour too short to hold a digit reads NaN on every channel, and a NaN
   * channel is written as 255: the result is white whatever the amount.
   */
  lemma ShortColorIsWhite(color: string, amount: real)
    requires |color| <= 1
    ensures Darken(color, amount) == "#ffffff"
  {
    forall i | 0 <= i < 3
      ensures ReadChannel(color, i) == NaN
    {
      assert Substring(color, 1 + 2 * i, 3 + 2 * i) == [];
    }
    assert ToHex(255) == ToHex(15) + [HexChar(15)];
    assert HexChar(15) == 'f';
  }
}
