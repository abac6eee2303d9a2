/** `percentage(value, total)`: the signed change from `total` to `value`, in
    percent, as the text shown on a dashboard card. */
module Percent {
  import opened Decimal

  /** What `((value - total) / total * 100).toFixed(0)` can yield: the rounded
      number, or one of the non-finite values division by zero produces. */
  datatype Fixed = Finite(n: int) | Infinity | NegativeInfinity | NaN

  /** Rounding to the nearest integer with halves away from zero, the rule
      `toFixed(0)` applies to the magnitude of its number. */
  function RoundHalfAwayFromZero(x: real): (n: int)
    ensures x - 0.5 <= n as real <= x + 0.5
    ensures n as real == x - 0.5 ==> x < 0.0
    ensures n as real == x + 0.5 ==> x >= 0.0
  {
    if x >= 0.0 then (x + 0.5).Floor else -((-x + 0.5).Floor)
  }

  /** The three properties of `RoundHalfAwayFromZero` determine its result. */
  lemma RoundingIsUnique(x: real, m: int)
    requires x - 0.5 <= m as real <= x + 0.5
    requires m as real == x - 0.5 ==> x < 0.0
    requires m as real == x + 0.5 ==> x >= 0.0
    ensures m == RoundHalfAwayFromZero(x)
  {
  }

  /** The rounded percentage change from `total` to `value`. */
  function Delta(value: real, total: real): int
    requires total != 0.0
  {
    RoundHalfAwayFromZero((value - total) / total * 100.0)
  }

  /** The number `toFixed(0)` is applied to, in the form it renders. */
  function ToFixed(value: real, total: real): Fixed {
    if total == 0.0 then
      if value > 0.0 then Infinity else if value < 0.0 then NegativeInfinity else NaN
    else
      Finite(Delta(value, total))
  }

  /** The text `toFixed(0)` returns. */
  function Render(f: Fixed): string {
    match f
    case Finite(n) => IntToString(n)
    case Infinity => "Infinity"
    case NegativeInfinity => "-Infinity"
    case NaN => "NaN"
  }

  /** `Number(s)` on the texts `toFixed(0)` returns, the coercion `result > 0`
      applies; other texts (`""`, `"+5"`) are not modelled and give `NaN` here. */
  function NumberOf(s: string): Fixed {
    if IsIntText(s) then Finite(ParseInt(s))
    else if s == "Infinity" then Infinity
    else if s == "-Infinity" then NegativeInfinity
    else NaN
  }

  predicate IsPositive(f: Fixed) {
    (f.Finite? && f.n > 0) || f.Infinity?
  }

  /** Reading back the text `toFixed(0)` returns recovers its number. */
  lemma RenderRoundTrip(f: Fixed)
    ensures NumberOf(Render(f)) == f
  {
    match f
    case Finite(n) =>
      IntRoundTrip(n);
    case Infinity =>
      assert !IsIntText("Infinity");
    case NegativeInfinity =>
      assert "-Infinity"[1..][0] == 'I';
    case NaN =>
      assert !IsIntText("NaN");
  }

  /** `percentage(value, total)`: empty when the quotient is `Infinity` or `NaN`,
      otherwise the rounded text and a `%`, with a `+` in front of a positive change. */
  function Percentage(value: real, total: real): (r: string)
    ensures r == "" <==> total == 0.0 && value >= 0.0
    ensures total == 0.0 && value < 0.0 ==> r == "-Infinity%"
    ensures total != 0.0 && Delta(value, total) > 0 ==> r == "+" + IntToString(Delta(value, total)) + "%"
    ensures total != 0.0 && Delta(value, total) <= 0 ==> r == IntToString(Delta(value, total)) + "%"
  {
    var result := Render(ToFixed(value, total));
    RenderRoundTrip(ToFixed(value, total));
    if result == "Infinity" || result == "NaN" then ""
    else if IsPositive(NumberOf(result)) then "+" + result + "%"
    else result + "%"
  }

  /** The cases the card shows: a gain, a loss, no prior value, and a negative
      value after a zero prior, which is not blanked. */
  lemma PercentageExamples()
    ensures Percentage(100.0, 50.0) == "+100%"
    ensures Percentage(50.0, 100.0) == "-50%"
    ensures Percentage(7.0, 0.0) == ""
    ensures Percentage(0.0, 0.0) == ""
    ensures Percentage(-7.0, 0.0) == "-Infinity%"
  {
    assert Delta(100.0, 50.0) == 100;
    assert Delta(50.0, 100.0) == -50;
    assert NatToString(100) == "100";
    assert NatToString(50) == "50";
  }
}
