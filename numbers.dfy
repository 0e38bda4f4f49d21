/** The numbers the CSV layer reads and prints.  A sensor cell is read with
    `Number.parseFloat(cell) || 0`; a value is printed inside an alert
    message with JavaScript's `${value}`.  Numbers are exact decimals here:
    `Decimal(negative, units, scale)` is `±units / 10^scale`. */
module Numbers {
  import opened Wrappers
  import opened Text

  datatype Decimal = Decimal(negative: bool, units: nat, scale: nat)

  const Zero := Decimal(false, 0, 0)

  function Pow10(n: nat): (r: nat)
    ensures r >= 1
  {
    if n == 0 then 1 else 10 * Pow10(n - 1)
  }

  /** The number a decimal stands for. */
  function Value(d: Decimal): real {
    (if d.negative then -1.0 else 1.0) * (d.units as real / Pow10(d.scale) as real)
  }

  predicate IsDigit(c: char) { '0' <= c <= '9' }

  /** How far `Number.parseFloat` has read: only white space, a sign, digits
      of the integer part, or digits after the point (`digits` tells whether
      any digit was read before or after it). */
  datatype ScanState =
    | Blank
    | Signed(negative: bool)
    | Whole(negative: bool, units: nat)
    | Fraction(negative: bool, units: nat, scale: nat, digits: bool)

  /** The number read so far when the text stops being part of a number. */
  function Stop(st: ScanState): Option<Decimal> {
    match st
    case Blank => None
    case Signed(_) => None
    case Whole(negative, units) => Some(Decimal(negative, units, 0))
    case Fraction(negative, units, scale, digits) => if digits then Some(Decimal(negative, units, scale)) else None
  }

  /** Reads `s[i..]` in state `st`: leading white space is skipped, then the
      longest prefix of the form `[+-] digits [. digits]` with at least one
      digit is read. */
  function Scan(s: string, i: nat, st: ScanState): Option<Decimal>
    requires i <= |s|
    decreases |s| - i
  {
    if i == |s| then Stop(st)
    else
      var c := s[i];
      var d := c as int - '0' as int;
      match st
      case Blank =>
        if IsSpace(c) then Scan(s, i + 1, Blank)
        else if c == '-' || c == '+' then Scan(s, i + 1, Signed(c == '-'))
        else if IsDigit(c) then Scan(s, i + 1, Whole(false, d))
        else if c == '.' then Scan(s, i + 1, Fraction(false, 0, 0, false))
        else None
      case Signed(negative) =>
        if IsDigit(c) then Scan(s, i + 1, Whole(negative, d))
        else if c == '.' then Scan(s, i + 1, Fraction(negative, 0, 0, false))
        else None
      case Whole(negative, units) =>
        if IsDigit(c) then Scan(s, i + 1, Whole(negative, 10 * units + d))
        else if c == '.' then Scan(s, i + 1, Fraction(negative, units, 0, true))
        else Stop(st)
      case Fraction(negative, units, scale, _) =>
        if IsDigit(c) then Scan(s, i + 1, Fraction(negative, 10 * units + d, scale + 1, true))
        else Stop(st)
  }

  /** `Number.parseFloat(s)`; `None` is NaN. */
  function ParseFloat(s: string): Option<Decimal> {
    Scan(s, 0, Blank)
  }

  /** `Number.parseFloat(s) || 0`: NaN and both zeros read as (positive) zero. */
  function ReadOrZero(s: string): (r: Decimal)
    ensures r.units == 0 ==> r == Zero
    ensures ParseFloat(s).None? ==> r == Zero
    ensures ParseFloat(s).Some? && ParseFloat(s).value.units != 0 ==> r == ParseFloat(s).value
  {
    match ParseFloat(s)
    case None => Zero
    case Some(d) => if d.units == 0 then Zero else d
  }

  /** Reading the text of a natural number gives that number. */
  lemma ParseFloatOfNatText(n: nat)
    ensures ParseFloat(NatText(n)) == Some(Decimal(false, n, 0))
  {
    var t := NatText(n);
    assert t[..1] == [t[0]];
    assert Scan(t, 0, Blank) == Scan(t, 1, Whole(false, DigitsValue(t[..1])));
    ScanDigits(t, 1, false);
    assert t[..|t|] == t;
    NatTextRoundTrip(n);
  }

  /** Past the first digit, a run of digits up to the end is read whole. */
  lemma {:induction false} ScanDigits(s: string, i: nat, negative: bool)
    requires 0 < i <= |s| && forall k :: 0 <= k < |s| ==> '0' <= s[k] <= '9'
    ensures Scan(s, i, Whole(negative, DigitsValue(s[..i]))) == Some(Decimal(negative, DigitsValue(s), 0))
    decreases |s| - i
  {
    if i < |s| {
      assert s[..i + 1][..i] == s[..i];
      ScanDigits(s, i + 1, negative);
    } else {
      assert s[..i] == s;
    }
  }

  /** Drops trailing zeros of the fraction. */
  function Canonical(d: Decimal): (r: Decimal)
    ensures r.scale <= d.scale
    ensures r.scale > 0 ==> r.units % 10 != 0
    decreases d.scale
  {
    if d.scale > 0 && d.units % 10 == 0 then Canonical(Decimal(d.negative, d.units / 10, d.scale - 1))
    else d
  }

  /** Dropping trailing zeros keeps the value: `Canonical` is the shortest
      decimal of the same number. */
  lemma {:induction false} CanonicalKeepsValue(d: Decimal)
    ensures Value(Canonical(d)) == Value(d)
    decreases d.scale
  {
    if d.scale > 0 && d.units % 10 == 0 {
      var next := Decimal(d.negative, d.units / 10, d.scale - 1);
      CanonicalKeepsValue(next);
      assert Canonical(d) == Canonical(next);
      ShiftKeepsValue(d.negative, d.units / 10, d.scale - 1);
      assert Decimal(d.negative, 10 * (d.units / 10), d.scale - 1 + 1) == d;
    }
  }

  /** `10u / 10^(s+1)` is `u / 10^s`. */
  lemma ShiftKeepsValue(negative: bool, u: nat, s: nat)
    ensures Value(Decimal(negative, 10 * u, s + 1)) == Value(Decimal(negative, u, s))
  {
    var p := Pow10(s) as real;
    assert Pow10(s + 1) as real == 10.0 * p;
    assert (10 * u) as real / (10.0 * p) == u as real / p;
  }

  /** `s` padded on the left with zeros to `width` characters. */
  function ZeroPad(s: string, width: nat): (r: string)
    ensures |r| == if |s| < width then width else |s|
    decreases width - |s|
  {
    if |s| < width then ZeroPad("0" + s, width) else s
  }

  /** `String(x)` for a decimal in plain notation: an optional minus, the
      integer part, and the fraction without trailing zeros.  A zero prints
      as `0`.  The exponent form JavaScript uses below 1e-6 and from 1e21 is
      not produced. */
  function NumberText(d: Decimal): (r: string)
    ensures |r| >= 1
  {
    var c := Canonical(d);
    (if c.negative && c.units != 0 then "-" else "") + PlainText(c.units, c.scale)
  }

  /** The digits of `units / 10^scale`, with a point before the last `scale` of them. */
  function PlainText(units: nat, scale: nat): (r: string)
    ensures |r| >= 1
  {
    var whole := NatText(Quotient(units, scale));
    if scale == 0 then whole else whole + "." + ZeroPad(NatText(Remainder(units, scale)), scale)
  }

  /** `units / 10^scale` rounded down, one digit at a time. */
  function Quotient(units: nat, scale: nat): nat
    decreases scale
  {
    if scale == 0 then units else Quotient(units / 10, scale - 1)
  }

  function Remainder(units: nat, scale: nat): nat { units % Pow10(scale) }

  /** Integers print as their digits. */
  lemma NumberTextOfNat(n: nat)
    ensures NumberText(Decimal(false, n, 0)) == NatText(n)
  {
    assert Canonical(Decimal(false, n, 0)) == Decimal(false, n, 0);
    assert Pow10(0) == 1;
    assert Quotient(n, 0) == n;
    assert PlainText(n, 0) == NatText(n);
  }

  // ---------------------------------------------------------------- toFixed

  /** The integer nearest to `m · 10^d`, the larger one on a tie, as
      `Number.prototype.toFixed` chooses it for a non-negative `m`. */
  function RoundedUnits(m: real, d: nat): (n: nat)
    requires m >= 0.0
    ensures n as real - 0.5 <= m * Pow10(d) as real < n as real + 0.5
  {
    (m * Pow10(d) as real + 0.5).Floor
  }

  /** `Number(v.toFixed(2))`: the magnitude rounded to two decimals, ties
      away from zero, the sign kept. */
  function Fixed2(v: real): (r: real)
    ensures v - 0.005 <= r <= v + 0.005
    ensures v >= 0.0 ==> r >= 0.0
  {
    if v < 0.0 then -(RoundedUnits(-v, 2) as real / 100.0) else RoundedUnits(v, 2) as real / 100.0
  }

  /** A whole number of hundredths comes back from `Fixed2` unchanged. */
  lemma Fixed2OfCents(n: int)
    ensures Fixed2(n as real / 100.0) == n as real / 100.0
  {
    assert Pow10(2) == 100 by { assert Pow10(1) == 10; }
    var m := if n < 0 then -n else n;
    assert RoundedUnits(m as real / 100.0, 2) == m by {
      assert m as real / 100.0 * 100.0 == m as real;
    }
  }
}
