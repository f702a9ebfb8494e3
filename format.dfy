/**
 * The number and boolean renderings that string interpolation performs in
 * the prompt, the transcript and the symptom notes.
 */
module Format {

  /** StringBuilder.AppendLine: the text followed by a line break. */
  function Line(s: string): string
  {
    s + "\n"
  }

  function DigitChar(d: nat): char
    requires d < 10
  {
    ('0' as int + d) as char
  }

  /** Decimal rendering of a natural number, without leading zeros. */
  function NatToString(n: nat): (r: string)
    ensures |r| >= 1
    ensures forall i :: 0 <= i < |r| ==> '0' <= r[i] <= '9'
  {
    if n < 10 then [DigitChar(n)] else NatToString(n / 10) + [DigitChar(n % 10)]
  }

  /** `{n}` for an int: a minus sign before negative numbers. */
  function IntToString(n: int): string
  {
    if n < 0 then "-" + NatToString(-n) else NatToString(n)
  }

  /** `{b}` for a bool: .NET writes "True" and "False". */
  function BoolToString(b: bool): string
  {
    if b then "True" else "False"
  }

  function Pow10(d: nat): (r: nat)
    ensures r >= 1
  {
    if d == 0 then 1 else 10 * Pow10(d - 1)
  }

  /** Left-pads a digit string with zeros up to `width` characters. */
  function PadZeros(s: string, width: nat): (r: string)
    ensures |r| == if |s| < width then width else |s|
    decreases width - |s|
  {
    if |s| < width then PadZeros("0" + s, width) else s
  }

  /** The nearest natural number to a non-negative real, halves rounded up. */
  function RoundHalfUp(y: real): (n: nat)
    requires y >= 0.0
  {
    (y + 0.5).Floor
  }

  /** |x| scaled by 10^d and rounded to the nearest natural number. */
  function Scaled(x: real, d: nat): nat
  {
    var magnitude := if x < 0.0 then -x else x;
    var p := Pow10(d) as real;
    assert magnitude * p >= 0.0 by { assert p >= 1.0; }
    RoundHalfUp(magnitude * p)
  }

  /**
   * Fixed-point rendering with `d` decimals, rounding half away from zero:
   * the digits of the scaled value, padded to at least one digit before the
   * point, with the point inserted `d` digits from the right.
   */
  function FormatFixed(x: real, d: nat): string
  {
    var scaled := Scaled(x, d);
    var digits := PadZeros(NatToString(scaled), d + 1);
    var sign := if x < 0.0 && scaled > 0 then "-" else "";
    var cut := |digits| - d;
    if d == 0 then sign + digits
    else sign + digits[..cut] + "." + digits[cut..]
  }

  /** The `:F2` format specifier. */
  function FormatF2(x: real): string
  {
    FormatFixed(x, 2)
  }

  /** Drops trailing zeros of a fraction, then a trailing decimal point. */
  function TrimFraction(s: string): string
  {
    if |s| > 0 && s[|s| - 1] == '0' then TrimFraction(s[..|s| - 1])
    else if |s| > 0 && s[|s| - 1] == '.' then s[..|s| - 1]
    else s
  }

  /** `{x}` for a float without a format specifier: the shortest decimal, here to 7 places. */
  function FormatFloat(x: real): string
  {
    TrimFraction(FormatFixed(x, 7))
  }

  /** The pieces of text one after the other, as successive StringBuilder appends build them. */
  function Concat(pieces: seq<string>): string
  {
    if pieces == [] then "" else Concat(pieces[..|pieces| - 1]) + pieces[|pieces| - 1]
  }

  /** Concatenating two runs of pieces is concatenating their concatenations. */
  lemma {:induction false} ConcatAppend(a: seq<string>, b: seq<string>)
    ensures Concat(a + b) == Concat(a) + Concat(b)
    decreases |b|
  {
    if b == [] {
      assert a + b == a;
    } else {
      var init, last := b[..|b| - 1], b[|b| - 1];
      assert (a + b)[..|a + b| - 1] == a + init;
      assert (a + b)[|a + b| - 1] == last;
      assert Concat(a + b) == Concat(a + init) + last;
      ConcatAppend(a, init);
      Associate(Concat(a), Concat(init), last);
    }
  }

  lemma Associate(x: string, y: string, z: string)
    ensures x + y + z == x + (y + z)
  {
  }
}
