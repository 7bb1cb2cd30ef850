/** The colour model of src/Rgb.tsx: an RGB triple of JavaScript numbers,
    parsed from hex, shaded and cycled in place, and printed as `rgb(r,g,b)`. */
module Colour {

  import opened Wrappers
  import opened Strings

  /** The three channels of an `Rgb` object. Channels are JavaScript numbers
      and are never clamped, so they are reals here. */
  datatype Color = Color(r: real, g: real, b: real)

  predicate IsIntegral(x: real) { x.Floor as real == x }

  predicate Integral(c: Color) { IsIntegral(c.r) && IsIntegral(c.g) && IsIntegral(c.b) }

  predicate NonNegative(c: Color) { c.r >= 0.0 && c.g >= 0.0 && c.b >= 0.0 }

  // ---------------------------------------------------------------------
  // parseInt(s, 16)

  /** The characters JavaScript's `parseInt` skips before the number
      (white space and line terminators). */
  predicate IsJsSpace(c: char)
  {
    var n := c as int;
    (9 <= n <= 13) || n == 32 || n == 0xA0 || n == 0x1680 || (0x2000 <= n <= 0x200A)
    || n == 0x2028 || n == 0x2029 || n == 0x202F || n == 0x205F || n == 0x3000 || n == 0xFEFF
  }

  predicate IsHexDigit(c: char)
  {
    ('0' <= c <= '9') || ('a' <= c <= 'f') || ('A' <= c <= 'F')
  }

  predicate AllHex(s: string) { forall i :: 0 <= i < |s| ==> IsHexDigit(s[i]) }

  function HexDigitValue(c: char): (v: nat)
    requires IsHexDigit(c)
    ensures v < 16
  {
    if '0' <= c <= '9' then c as int - '0' as int
    else if 'a' <= c <= 'f' then c as int - 'a' as int + 10
    else c as int - 'A' as int + 10
  }

  function Pow16(k: nat): (p: nat)
    ensures p >= 1
  {
    if k == 0 then 1 else 16 * Pow16(k - 1)
  }

  /** Value of a string of hex digits, most significant digit first. */
  function HexValue(s: string): (n: nat)
    requires AllHex(s)
    ensures n < Pow16(|s|)
  {
    if s == [] then 0 else HexValue(s[..|s| - 1]) * 16 + HexDigitValue(s[|s| - 1])
  }

  /** Length of the longest prefix of `s` made of hex digits. */
  function HexPrefix(s: string): (k: nat)
    ensures k <= |s| && AllHex(s[..k])
    ensures k < |s| ==> !IsHexDigit(s[k])
  {
    if s != [] && IsHexDigit(s[0]) then
      var k := 1 + HexPrefix(s[1..]);
      assert s[..k] == [s[0]] + s[1..][..k - 1];
      k
    else 0
  }

  /** Where `parseInt` is in the text: skipping white space, at the
      optional sign, or at the digits (after the sign, if any). */
  datatype ParsePhase = Blank | Sign | Body(negative: bool)
  {
    function Rank(): nat { match this case Blank => 2 case Sign => 1 case Body(_) => 0 }
  }

  /** `parseInt(s, 16)` from `phase` on: skip leading white space, take an
      optional sign and an optional `0x`/`0X`, then the longest run of hex
      digits; `None` is `NaN` (no digit at all). */
  function ParseFrom(s: string, phase: ParsePhase): Option<int>
    decreases |s|, phase.Rank()
  {
    match phase
    case Blank =>
      if s != [] && IsJsSpace(s[0]) then ParseFrom(s[1..], Blank) else ParseFrom(s, Sign)
    case Sign =>
      if s != [] && (s[0] == '-' || s[0] == '+') then ParseFrom(s[1..], Body(s[0] == '-'))
      else ParseFrom(s, Body(false))
    case Body(negative) =>
      var v := if |s| >= 2 && s[0] == '0' && (s[1] == 'x' || s[1] == 'X') then s[2..] else s;
      var k := HexPrefix(v);
      if k == 0 then None
      else
        var m: int := HexValue(v[..k]);
        Some(if negative then -m else m)
  }

  /** `parseInt(s, 16)`. */
  function ParseHex(s: string): Option<int>
  {
    ParseFrom(s, Blank)
  }

  lemma {:induction false} HexPrefixAll(s: string)
    requires AllHex(s)
    ensures HexPrefix(s) == |s|
  {
    if s != [] {
      HexPrefixAll(s[1..]);
    }
  }

  /** The digit phase on a run of hex digits takes all of them. */
  lemma BodyDigits(s: string, negative: bool)
    requires s != [] && AllHex(s)
    ensures ParseFrom(s, Body(negative)) == Some(if negative then -(HexValue(s) as int) else HexValue(s))
  {
    NoHexMark(s);
    HexPrefixAll(s);
    assert s[..HexPrefix(s)] == s;
    var m: int := HexValue(s);
    assert ParseFrom(s, Body(negative)) == Some(if negative then -m else m);
  }

  /** A run of hex digits has no `x` in second place. */
  lemma NoHexMark(s: string)
    requires AllHex(s)
    ensures !(|s| >= 2 && s[0] == '0' && (s[1] == 'x' || s[1] == 'X'))
  {
    if |s| >= 2 {
      assert IsHexDigit(s[1]);
    }
  }

  /** Text that starts with neither white space nor a sign goes straight
      to the digit phase. */
  lemma UnsignedStart(x: string)
    requires x != [] && !IsJsSpace(x[0]) && x[0] != '-' && x[0] != '+'
    ensures ParseHex(x) == ParseFrom(x, Body(false))
  {
    assert ParseHex(x) == ParseFrom(x, Sign);
  }

  /** A leading sign is taken, and the digit phase starts after it. */
  lemma SignedStart(sign: char, x: string)
    requires sign == '-' || sign == '+'
    ensures ParseHex([sign] + x) == ParseFrom(x, Body(sign == '-'))
  {
    var y := [sign] + x;
    assert y[1..] == x;
    assert !IsJsSpace(sign);
    assert ParseHex(y) == ParseFrom(y, Sign);
  }

  /** A non-empty string of hex digits parses to its value. */
  lemma ParseHexDigits(s: string)
    requires s != [] && AllHex(s)
    ensures ParseHex(s) == Some(HexValue(s))
  {
    assert IsHexDigit(s[0]);
    UnsignedStart(s);
    BodyDigits(s, false);
  }

  /** Leading white space does not change the number. */
  lemma ParseHexSkipsSpace(c: char, s: string)
    requires IsJsSpace(c)
    ensures ParseHex([c] + s) == ParseHex(s)
  {
    assert ([c] + s)[1..] == s;
  }

  /** A sign is taken before the digits. */
  lemma ParseHexSigned(s: string)
    requires s != [] && AllHex(s)
    ensures ParseHex("-" + s) == Some(-(HexValue(s) as int))
    ensures ParseHex("+" + s) == Some(HexValue(s))
  {
    SignedStart('-', s);
    SignedStart('+', s);
    BodyDigits(s, true);
    BodyDigits(s, false);
  }

  /** A `0x` or `0X` mark, with no sign, a `-` or a `+` before it, is taken
      before the digits. */
  lemma ParseHexMarked(s: string, mark: char)
    requires s != [] && AllHex(s) && (mark == 'x' || mark == 'X')
    ensures ParseHex(['0', mark] + s) == Some(HexValue(s))
    ensures ParseHex(['-', '0', mark] + s) == Some(-(HexValue(s) as int))
    ensures ParseHex(['+', '0', mark] + s) == Some(HexValue(s))
  {
    MarkedBody(s, mark, false);
    UnsignedStart(['0', mark] + s);
    SignedMarked(s, mark, '-');
    SignedMarked(s, mark, '+');
  }

  lemma SignedMarked(s: string, mark: char, sign: char)
    requires s != [] && AllHex(s) && (mark == 'x' || mark == 'X') && (sign == '-' || sign == '+')
    ensures ParseHex([sign, '0', mark] + s) == Some(if sign == '-' then -(HexValue(s) as int) else HexValue(s))
  {
    var x := ['0', mark] + s;
    MarkedBody(s, mark, sign == '-');
    SignedStart(sign, x);
    assert [sign, '0', mark] + s == [sign] + x;
  }

  /** The digit phase skips a `0x` or `0X` mark and takes every digit after it. */
  lemma MarkedBody(s: string, mark: char, negative: bool)
    requires s != [] && AllHex(s) && (mark == 'x' || mark == 'X')
    ensures ParseFrom(['0', mark] + s, Body(negative))
      == Some(if negative then -(HexValue(s) as int) else HexValue(s))
  {
    HexPrefixAll(s);
    var x := ['0', mark] + s;
    assert x[2..] == s;
    assert s[..|s|] == s;
  }

  /** No digit at all is `NaN`; in particular a colour still carrying its
      `#` does not parse. */
  lemma ParseHexNaN()
    ensures ParseHex("") == None
    ensures ParseHex("#8000ff") == None
    ensures ParseHex("0x") == None
  {
    assert "0x"[2..] == "";
  }

  // ---------------------------------------------------------------------
  // Rgb.fromHex

  /** Byte `k` (counting from the least significant) of the 32-bit integer
      `n`: `(n >> 8k) & 255`. Euclidean division by a power of two is the
      arithmetic shift, also for negative `n`. */
  function ByteOf(n: int, k: nat): (v: int)
    requires k < 3
    ensures 0 <= v < 256
  {
    if k == 0 then n % 256 else if k == 1 then (n / 256) % 256 else (n / 65536) % 256
  }

  /** The channels `Rgb.fromHex` builds: bytes 2, 1 and 0 of `parseInt(hex, 16)`;
      `NaN` converts to the integer 0 before shifting. */
  function HexColor(hex: string): (c: Color)
    ensures Integral(c) && NonNegative(c)
    ensures c.r < 256.0 && c.g < 256.0 && c.b < 256.0
  {
    var n := match ParseHex(hex) case Some(v) => v case None => 0;
    Color(ByteOf(n, 2) as real, ByteOf(n, 1) as real, ByteOf(n, 0) as real)
  }

  lemma BytesRecompose(n: int)
    requires 0 <= n < 16777216
    ensures ByteOf(n, 2) * 65536 + ByteOf(n, 1) * 256 + ByteOf(n, 0) == n
  {
    var r, b0 := n / 256, n % 256;
    var q, b1 := r / 256, r % 256;
    assert n == r * 256 + b0 && 0 <= b0 < 256;
    assert r == q * 256 + b1 && 0 <= b1 < 256;
    DivideByBlock(n, q, b1 * 256 + b0);
    assert 0 <= q < 256;
  }

  /** Whole division by 65536 of `q * 65536 + rest`, the rest below 65536. */
  lemma DivideByBlock(n: int, q: int, rest: int)
    requires n == q * 65536 + rest && 0 <= rest < 65536
    ensures n / 65536 == q
  {
  }

  /** `fromHex` of six hex digits splits the parsed number into bytes:
      `r*65536 + g*256 + b` is the number itself. */
  lemma HexColorSixDigits(hex: string)
    requires |hex| == 6 && AllHex(hex)
    ensures var c := HexColor(hex);
      c.r * 65536.0 + c.g * 256.0 + c.b == HexValue(hex) as real
  {
    ParseHexDigits(hex);
    assert Pow16(6) == 16777216;
    BytesRecompose(HexValue(hex));
  }

  lemma HexValueSnoc(s: string, c: char)
    requires AllHex(s) && IsHexDigit(c)
    ensures AllHex(s + [c]) && HexValue(s + [c]) == HexValue(s) * 16 + HexDigitValue(c)
  {
    assert (s + [c])[..|s|] == s;
  }

  lemma PurpleValue()
    ensures AllHex("8000ff") && HexValue("8000ff") == 8388863
  {
    var s1 := [] + ['8'];
    HexValueSnoc([], '8');
    var s2 := s1 + ['0'];
    HexValueSnoc(s1, '0');
    var s3 := s2 + ['0'];
    HexValueSnoc(s2, '0');
    var s4 := s3 + ['0'];
    HexValueSnoc(s3, '0');
    var s5 := s4 + ['f'];
    HexValueSnoc(s4, 'f');
    var s6 := s5 + ['f'];
    HexValueSnoc(s5, 'f');
    assert s6 == "8000ff";
  }

  lemma PurpleBytes()
    ensures ByteOf(8388863, 2) == 128 && ByteOf(8388863, 1) == 0 && ByteOf(8388863, 0) == 255
  {
    assert 8388863 == 128 * 65536 + 255;
  }

  lemma HexColorPurple()
    ensures HexColor("8000ff") == Color(128.0, 0.0, 255.0)
  {
    PurpleValue();
    ParseHexDigits("8000ff");
    PurpleBytes();
  }

  // ---------------------------------------------------------------------
  // Rgb.shade and Rgb.random

  /** The channels after `shade(diff, factor)`: every channel gains the same
      `(255 - diff) * factor`, without clamping. */
  function Shaded(c: Color, diff: real, factor: real): (s: Color)
    ensures s.r - c.r == s.g - c.g == s.b - c.b
    ensures s.r - s.g == c.r - c.g && s.g - s.b == c.g - c.b && s.r - s.b == c.r - c.b
    ensures diff <= 255.0 && factor >= 0.0 ==> s.r >= c.r && s.g >= c.g && s.b >= c.b
    ensures diff < 255.0 && factor > 0.0 ==> s.r > c.r && s.g > c.g && s.b > c.b
    ensures diff == 255.0 || factor == 0.0 ==> s == c
  {
    var d := (255.0 - diff) * factor;
    Color(c.r + d, c.g + d, c.b + d)
  }

  /** The channels after `Rgb.random`: three `if`s run one after the other,
      each moving one unit from one channel to the next, so a later step
      sees the effect of an earlier one. */
  function Cycled(c: Color): (d: Color)
    ensures d.r + d.g + d.b == c.r + c.g + c.b
    ensures (c.r > 0.0 && c.g > 0.0 && c.b > 0.0) || c == Color(0.0, 0.0, 0.0) ==> d == c
  {
    var c1 := if c.r > 0.0 && c.b == 0.0 then Color(c.r - 1.0, c.g + 1.0, c.b) else c;
    var c2 := if c1.g > 0.0 && c1.r == 0.0 then Color(c1.r, c1.g - 1.0, c1.b + 1.0) else c1;
    if c2.b > 0.0 && c2.g == 0.0 then Color(c2.r + 1.0, c2.g, c2.b - 1.0) else c2
  }

  lemma PositiveIntegralAtLeastOne(x: real)
    requires IsIntegral(x) && x > 0.0
    ensures x >= 1.0
  {
    assert x.Floor >= 1;
  }

  /** On integral non-negative channels `Cycled` stays integral and
      non-negative: a channel is decremented only when it is positive. */
  lemma CycledKeepsNonNegative(c: Color)
    requires Integral(c) && NonNegative(c)
    ensures Integral(Cycled(c)) && NonNegative(Cycled(c))
  {
    if c.r > 0.0 { PositiveIntegralAtLeastOne(c.r); }
    var c1 := if c.r > 0.0 && c.b == 0.0 then Color(c.r - 1.0, c.g + 1.0, c.b) else c;
    assert (c.r - 1.0).Floor == c.r.Floor - 1 && (c.g + 1.0).Floor == c.g.Floor + 1;
    if c1.g > 0.0 { PositiveIntegralAtLeastOne(c1.g); }
    var c2 := if c1.g > 0.0 && c1.r == 0.0 then Color(c1.r, c1.g - 1.0, c1.b + 1.0) else c1;
    assert (c1.g - 1.0).Floor == c1.g.Floor - 1 && (c1.b + 1.0).Floor == c1.b.Floor + 1;
    if c2.b > 0.0 { PositiveIntegralAtLeastOne(c2.b); }
    assert (c2.b - 1.0).Floor == c2.b.Floor - 1 && (c2.r + 1.0).Floor == c2.r.Floor + 1;
  }

  /** The three steps are not exclusive: from (1,0,0) all three fire and
      the colour comes back to itself; from the default purple only the
      third fires; from (255,0,1) red leaves the byte range. */
  lemma CycledExamples()
    ensures Cycled(Color(1.0, 0.0, 0.0)) == Color(1.0, 0.0, 0.0)
    ensures Cycled(Color(128.0, 0.0, 255.0)) == Color(129.0, 0.0, 254.0)
    ensures Cycled(Color(255.0, 0.0, 1.0)) == Color(256.0, 0.0, 0.0)
  {
  }

  // ---------------------------------------------------------------------
  // Rgb.toString

  /** `rgb(r,g,b)` in r, g, b order, each channel as JavaScript prints an
      integral number; nothing is clamped. */
  function Text(c: Color): string
    requires Integral(c)
  {
    "rgb(" + IntText(c.r.Floor) + "," + IntText(c.g.Floor) + "," + IntText(c.b.Floor) + ")"
  }

  /** Reads `rgb(r,g,b)` with integer channels back into a colour. */
  function ReadText(s: string): Option<Color>
  {
    if |s| >= 5 && s[..4] == "rgb(" && s[|s| - 1] == ')' then ReadFields(s[4..|s| - 1]) else None
  }

  /** Reads `r,g,b`: three integers separated by the first two commas. */
  function ReadFields(inner: string): Option<Color>
  {
    var i := IndexOf(inner, ',');
    if i == |inner| then None
    else
      var rest := inner[i + 1..];
      var j := IndexOf(rest, ',');
      if j == |rest| then None
      else Channels(ReadInt(inner[..i]), ReadInt(rest[..j]), ReadInt(rest[j + 1..]))
  }

  function Channels(x: Option<int>, y: Option<int>, z: Option<int>): Option<Color>
  {
    if x.Some? && y.Some? && z.Some? then Some(Color(x.value as real, y.value as real, z.value as real))
    else None
  }

  lemma {:induction false} IndexOfAfter(a: string, t: string, c: char)
    requires forall k :: 0 <= k < |a| ==> a[k] != c
    ensures IndexOf(a + [c] + t, c) == |a|
  {
    if a != [] {
      assert (a + [c] + t)[1..] == a[1..] + [c] + t;
      IndexOfAfter(a[1..], t, c);
    }
  }

  predicate NoComma(s: string) { forall k :: 0 <= k < |s| ==> s[k] != ',' }

  lemma ReadFieldsOf(a: string, b: string, d: string)
    requires NoComma(a) && NoComma(b)
    ensures ReadFields(a + [','] + (b + [','] + d)) == Channels(ReadInt(a), ReadInt(b), ReadInt(d))
  {
    var inner := a + [','] + (b + [','] + d);
    IndexOfAfter(a, b + [','] + d, ',');
    assert inner[..|a|] == a;
    assert inner[|a| + 1..] == b + [','] + d;
    IndexOfAfter(b, d, ',');
    assert (b + [','] + d)[..|b|] == b;
    assert (b + [','] + d)[|b| + 1..] == d;
  }

  lemma ReadTextFields(a: string, b: string, d: string)
    requires NoComma(a) && NoComma(b)
    ensures ReadText("rgb(" + a + "," + b + "," + d + ")") == Channels(ReadInt(a), ReadInt(b), ReadInt(d))
  {
    var s := "rgb(" + a + "," + b + "," + d + ")";
    var inner := a + [','] + (b + [','] + d);
    assert s == "rgb(" + inner + ")";
    assert s[..4] == "rgb(" && s[4..|s| - 1] == inner;
    ReadFieldsOf(a, b, d);
  }

  lemma IntTextNoComma(i: int)
    ensures NoComma(IntText(i)) && ReadInt(IntText(i)) == Some(i)
  {
    IntTextRoundTrip(i);
  }

  /** `toString` and `ReadText` are inverse on integral channels, so the
      text carries each channel exactly, above 255 or below 0 included. */
  lemma TextRoundTrip(c: Color)
    requires Integral(c)
    ensures ReadText(Text(c)) == Some(c)
  {
    IntTextNoComma(c.r.Floor);
    IntTextNoComma(c.g.Floor);
    IntTextNoComma(c.b.Floor);
    ReadTextFields(IntText(c.r.Floor), IntText(c.g.Floor), IntText(c.b.Floor));
  }

  // ---------------------------------------------------------------------
  // class Rgb

  /** A mutable colour: `shade` and `random` change the channels in place. */
  class Rgb {
    var r: real
    var g: real
    var b: real

    function Value(): Color
      reads this
    {
      Color(r, g, b)
    }

    constructor (r: real, g: real, b: real)
      ensures Value() == Color(r, g, b)
    {
      this.r, this.g, this.b := r, g, b;
    }

    /** Throws before touching a channel when `factor` is outside [0, 1]. */
    method Shade(diff: real, factor: real) returns (outcome: Outcome)
      modifies this
      ensures factor < 0.0 || factor > 1.0 ==> outcome == Fail(IllegalArgument) && Value() == old(Value())
      ensures 0.0 <= factor <= 1.0 ==> outcome == Pass && Value() == Shaded(old(Value()), diff, factor)
    {
      if factor < 0.0 || factor > 1.0 {
        return Fail(IllegalArgument);
      }
      r := r + (255.0 - diff) * factor;
      g := g + (255.0 - diff) * factor;
      b := b + (255.0 - diff) * factor;
      outcome := Pass;
    }

    /** The colour's text; reading it back gives the channels exactly. */
    function ToString(): (s: string)
      reads this
      requires Integral(Value())
      ensures ReadText(s) == Some(Value())
    {
      TextRoundTrip(Value());
      Text(Value())
    }

    static method FromHex(hex: string) returns (rgb: Rgb)
      ensures fresh(rgb) && rgb.Value() == HexColor(hex)
    {
      var c := HexColor(hex);
      rgb := new Rgb(c.r, c.g, c.b);
    }

    /** Steps `before` in place and returns the same object. */
    static method Random(before: Rgb) returns (after: Rgb)
      modifies before
      ensures after == before && before.Value() == Cycled(old(before.Value()))
    {
      if before.r > 0.0 && before.b == 0.0 {
        before.r := before.r - 1.0;
        before.g := before.g + 1.0;
      }
      if before.g > 0.0 && before.r == 0.0 {
        before.g := before.g - 1.0;
        before.b := before.b + 1.0;
      }
      if before.b > 0.0 && before.g == 0.0 {
        before.r := before.r + 1.0;
        before.b := before.b - 1.0;
      }
      after := before;
    }
  }
}
