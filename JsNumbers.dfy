/**
  The part of JavaScript's number semantics that the stress check relies on.
  The metrics provider reports whole seconds, so every number the check
  computes is either an integer or NaN (the result of arithmetic on a missing
  field). Integers here are unbounded; JavaScript numbers are doubles, which
  represent every integer below 2^53 exactly, and that is the range these
  functions are faithful on.
*/
module JsNumbers {
  import opened Wrappers

  /** An integral JavaScript number, or NaN. */
  datatype Num = NaN | Int(value: int)

  /** `a - b`: NaN if either operand is NaN. */
  function Sub(a: Num, b: Num): (r: Num)
    ensures r.Int? <==> a.Int? && b.Int?
    ensures r.Int? ==> r.value + b.value == a.value
  {
    if a.Int? && b.Int? then Int(a.value - b.value) else NaN
  }

  /** `a > k` for an integer constant `k`: every comparison with NaN is false. */
  predicate GreaterThan(a: Num, k: int)
    ensures a.NaN? ==> !GreaterThan(a, k)
    ensures a.Int? ==> (GreaterThan(a, k) <==> Sub(a, Int(k)).value > 0)
  {
    a.Int? && a.value > k
  }

  /**
    `Math.round(d / 60)` for an integer `d`: the integer nearest to d/60,
    halves going toward +infinity. Euclidean division by the positive 120
    is the floor, and Math.round(x) is floor(x + 1/2).
  */
  function RoundDiv60(d: int): (m: int)
    ensures 60 * m - 30 <= d < 60 * m + 30
  {
    (2 * d + 60) / 120
  }

  function Abs(x: int): (r: nat)
    ensures r == x || r == -x
  {
    if x < 0 then -x else x
  }

  /** RoundDiv60 is the only integer whose window [60m - 30, 60m + 30) holds d. */
  lemma RoundDiv60Unique(d: int, m: int)
    requires 60 * m - 30 <= d < 60 * m + 30
    ensures m == RoundDiv60(d)
  {
    var r := RoundDiv60(d);
    assert 60 * (m - r) < 60 && 60 * (r - m) < 60;
  }

  /**
    No multiple of 60 is closer to d than 60 * RoundDiv60(d), and on a tie
    the rounded value is the larger candidate (halves round up).
  */
  lemma RoundDiv60Nearest(d: int, k: int)
    ensures Abs(d - 60 * RoundDiv60(d)) <= Abs(d - 60 * k)
    ensures Abs(d - 60 * RoundDiv60(d)) == Abs(d - 60 * k) ==> k <= RoundDiv60(d)
  {
    var m := RoundDiv60(d);
    if k < m {
      assert d - 60 * k >= d - 60 * (m - 1) >= 30;
    } else if k > m {
      assert 60 * k - d >= 60 * (m + 1) - d > 30;
    }
  }

  /** Math.round on the values of this program: NaN stays NaN. */
  function RoundMinutes(seconds: Num): (r: Num)
    ensures r.NaN? <==> seconds.NaN?
    ensures seconds.Int? ==> Abs(60 * r.value - seconds.value) <= 30
  {
    match seconds
    case NaN => NaN
    case Int(d) => Int(RoundDiv60(d))
  }

  lemma RoundingExamples()
    ensures RoundDiv60(30) == 1 && RoundDiv60(-30) == 0
    ensures RoundDiv60(90) == 2 && RoundDiv60(-90) == -1
    ensures RoundDiv60(29) == 0 && RoundDiv60(-31) == -1
    ensures RoundDiv60(5400) == 90 && RoundDiv60(3661) == 61
  {
  }

  // Decimal rendering, as `${n}` in a template literal does it.

  predicate IsDigit(c: char) {
    '0' <= c <= '9'
  }

  predicate AllDigits(s: string) {
    forall i :: 0 <= i < |s| ==> IsDigit(s[i])
  }

  function DigitValue(c: char): (d: nat)
    requires IsDigit(c)
    ensures d < 10
  {
    c as int - '0' as int
  }

  function DigitChar(d: nat): (c: char)
    requires d < 10
    ensures IsDigit(c) && DigitValue(c) == d
  {
    ('0' as int + d) as char
  }

  /** The shortest decimal numeral of n: digits only, no leading zero. */
  function NatToDecimal(n: nat): (s: string)
    ensures 1 <= |s| && AllDigits(s)
    ensures |s| > 1 ==> s[0] != '0'
    ensures n < 10 <==> |s| == 1
  {
    if n < 10 then [DigitChar(n)] else NatToDecimal(n / 10) + [DigitChar(n % 10)]
  }

  /** The value of a string of decimal digits, most significant first. */
  function DecimalValue(s: string): nat
    requires AllDigits(s)
  {
    if s == [] then 0 else 10 * DecimalValue(s[..|s| - 1]) + DigitValue(s[|s| - 1])
  }

  lemma {:induction false} DecimalRoundTrip(n: nat)
    ensures DecimalValue(NatToDecimal(n)) == n
  {
    if n >= 10 {
      var s := NatToDecimal(n / 10);
      var t := s + [DigitChar(n % 10)];
      assert t[..|t| - 1] == s;
      DecimalRoundTrip(n / 10);
    }
  }

  /** `String(x)` for an integral number or NaN (a negative zero prints as "0"). */
  function ToString(x: Num): (s: string)
    ensures 1 <= |s|
    ensures x.NaN? <==> s == "NaN"
    ensures x.Int? && x.value < 0 <==> s[0] == '-'
  {
    match x
    case NaN => "NaN"
    case Int(v) =>
      var t := NatToDecimal(if v < 0 then -v else v);
      var s := if v < 0 then "-" + t else t;
      assert s[0] == (if v < 0 then '-' else t[0]) && s[0] != 'N';
      s
  }

  /** Reads back a numeral in the form ToString produces; None for any other string. */
  function ParseNumeral(s: string): Option<Num> {
    if s == "NaN" then Some(NaN)
    else if |s| >= 2 && s[0] == '-' && AllDigits(s[1..]) && s[1] != '0' then Some(Int(-(DecimalValue(s[1..]) as int)))
    else if |s| >= 1 && AllDigits(s) && (|s| == 1 || s[0] != '0') then Some(Int(DecimalValue(s)))
    else None
  }

  lemma ParseToString(x: Num)
    ensures ParseNumeral(ToString(x)) == Some(x)
  {
    match x
    case NaN =>
    case Int(v) =>
      if v < 0 {
        var t := NatToDecimal(-v);
        assert ("-" + t)[1..] == t;
        DecimalRoundTrip(-v);
      } else {
        DecimalRoundTrip(v);
      }
  }

  /** Distinct numbers never print alike, so a printed number identifies its value. */
  lemma ToStringInjective(a: Num, b: Num)
    requires ToString(a) == ToString(b)
    ensures a == b
  {
    ParseToString(a);
    ParseToString(b);
  }
}
