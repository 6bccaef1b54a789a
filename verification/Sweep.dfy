/** The amount of a sweep: the most that leaves room for the makers' relative fees, which are rounded half-even. */
module Sweep {

  /** A rate written with `decimals` digits after the point, all its digits being `numerator`. */
  datatype Rate = Rate(numerator: nat, decimals: nat)

  function Pow10(k: nat): (p: nat)
    ensures p > 0
  {
    if k == 0 then 1 else 10 * Pow10(k - 1)
  }

  function Product(a: nat, b: nat): (p: nat) {
    a * b
  }

  function Quotient(n: nat, d: nat): (q: nat)
    requires d > 0
    ensures q * d <= n < q * d + d
  {
    Divided(n, d);
    n / d
  }

  lemma Divided(n: nat, d: nat)
    requires d > 0
    ensures n == (n / d) * d + n % d
  {
  }

  /** `n / d` to the nearest integer, a half to the even one. */
  function RoundHalfEven(n: nat, d: nat): (q: nat)
    requires d > 0
  {
    var q := n / d;
    if 2 * (n % d) < d || (2 * (n % d) == d && q % 2 == 0) then q else q + 1
  }

  /** `calculate_relative_fee`. */
  function RelativeFee(amount: nat, rate: Rate): (fee: nat) {
    RoundHalfEven(rate.numerator * amount, Pow10(rate.decimals))
  }

  function Fees(amount: nat, rates: seq<Rate>): (sum: nat) {
    if rates == [] then 0 else Fees(amount, rates[..|rates| - 1]) + RelativeFee(amount, rates[|rates| - 1])
  }

  predicate Fits(available: nat, rates: seq<Rate>, amount: nat) {
    amount + Fees(amount, rates) <= available
  }

  function MaxDecimals(rates: seq<Rate>): (m: nat)
    ensures forall r :: r in rates ==> r.decimals <= m
  {
    if rates == [] then 0
    else
      var m := MaxDecimals(rates[..|rates| - 1]);
      assert rates == rates[..|rates| - 1] + [rates[|rates| - 1]];
      if rates[|rates| - 1].decimals > m then rates[|rates| - 1].decimals else m
  }

  /** A rate in units of the last of `m` decimals. */
  function Scaled(r: Rate, m: nat): (s: nat)
    requires r.decimals <= m
  {
    r.numerator * Pow10(m - r.decimals)
  }

  /** The sum of the rates, in units of the last of `m` decimals. */
  function SumNumerators(rates: seq<Rate>, m: nat): (sum: nat)
    requires forall r :: r in rates ==> r.decimals <= m
  {
    if rates == [] then 0
    else SumNumerators(rates[..|rates| - 1], m) + Scaled(rates[|rates| - 1], m)
  }

  function Denominator(rates: seq<Rate>): (d: nat)
    ensures d > 0
  {
    Pow10(MaxDecimals(rates))
  }

  function Numerator(rates: seq<Rate>): (s: nat) {
    SumNumerators(rates, MaxDecimals(rates))
  }

  /** The sweep amount in exact arithmetic. */
  function Floor(available: nat, rates: seq<Rate>): (f: nat) {
    Quotient(Product(available, Denominator(rates)), Denominator(rates) + Numerator(rates))
  }

  // ---- rounding ----

  // Products, one fact at a time.

  lemma Distribute(a: int, b: int, c: int)
    ensures (a + b) * c == a * c + b * c
  {
  }

  lemma Commute(a: int, b: int)
    ensures a * b == b * a
  {
  }

  lemma Regroup(a: int, b: int, c: int)
    ensures (a * b) * c == a * (b * c)
  {
  }

  lemma Grow(a: int, b: int, c: int)
    requires a <= b && 0 <= c
    ensures a * c <= b * c
  {
  }

  lemma RoundBound(n: nat, d: nat)
    requires d > 0
    ensures 2 * n - d <= 2 * (RoundHalfEven(n, d) * d) <= 2 * n + d
  {
    Divided(n, d);
    Distribute(n / d, 1, d);
  }

  function Abs(x: int): (a: nat) {
    if x < 0 then -x else x
  }

  /** Only the quotient and the number after it can be within half a unit. */
  lemma TwoCandidates(n: nat, d: nat, q: nat)
    requires d > 0 && 2 * Abs(q * d - n) <= d
    ensures q == n / d || q == n / d + 1
  {
    var f := n / d;
    Divided(n, d);
    if q > f + 1 { Grow(f + 2, q, d); Distribute(f, 2, d); }
    if q < f { Grow(q + 1, f, d); Distribute(q, 1, d); }
  }

  /** The result is the nearest integer, and of two nearest ones the even one. */
  lemma RoundsHalfToEven(n: nat, d: nat, q: nat)
    requires d > 0
    ensures q == RoundHalfEven(n, d) <==> 2 * Abs(q * d - n) <= d && (2 * Abs(q * d - n) == d ==> q % 2 == 0)
  {
    Divided(n, d);
    Distribute(n / d, 1, d);
    if 2 * Abs(q * d - n) <= d { TwoCandidates(n, d, q); }
  }

  /** The fee is the nearest whole number of units to the rate times the amount, an even one for a half. */
  lemma FeeRoundsHalfToEven(amount: nat, rate: Rate, fee: nat)
    ensures var n, d := rate.numerator * amount, Pow10(rate.decimals);
            fee == RelativeFee(amount, rate) <==>
            2 * Abs(fee * d - n) <= d && (2 * Abs(fee * d - n) == d ==> fee % 2 == 0)
  {
    RoundsHalfToEven(rate.numerator * amount, Pow10(rate.decimals), fee);
    hide RoundHalfEven, Pow10;
  }

  lemma RoundMonotone(a: nat, b: nat, d: nat)
    requires d > 0 && a <= b
    ensures RoundHalfEven(a, d) <= RoundHalfEven(b, d)
  {
    Divided(a, d);
    Divided(b, d);
    QuotientMonotone(a, b, d);
  }

  lemma QuotientMonotone(a: nat, b: nat, d: nat)
    requires d > 0 && a <= b
    ensures a / d <= b / d
  {
    Divided(a, d);
    Divided(b, d);
    var p, q := a / d, b / d;
    Distribute(q, 1, d);
    if p >= q + 1 { Grow(q + 1, p, d); }
  }

  lemma {:induction false} PowSplit(k: nat, j: nat)
    ensures Pow10(k + j) == Pow10(k) * Pow10(j)
  {
    if k > 0 { PowSplit(k - 1, j); }
  }

  /** A rounded fee is within half a unit of the exact one. */
  lemma FeeBound(x: nat, r: Rate, m: nat)
    requires r.decimals <= m
    ensures var s := Scaled(r, m);
            2 * (s * x) - Pow10(m) <= 2 * (RelativeFee(x, r) * Pow10(m)) <= 2 * (s * x) + Pow10(m)
  {
    hide RoundHalfEven, Pow10;
    var d, p := Pow10(r.decimals), Pow10(m - r.decimals);
    var n, f := r.numerator * x, RelativeFee(x, r);
    PowSplit(r.decimals, m - r.decimals);
    RoundBound(n, d);
    Regroup(f, d, p);
    Regroup(r.numerator, p, x);
    Commute(p, x);
    Regroup(r.numerator, x, p);
    ScaleBound(n, d, f * d, p);
  }

  lemma ScaleBound(n: int, d: int, g: int, p: nat)
    requires 2 * n - d <= 2 * g <= 2 * n + d
    ensures 2 * (n * p) - d * p <= 2 * (g * p) <= 2 * (n * p) + d * p
  {
    Grow(2 * n - d, 2 * g, p);
    Grow(2 * g, 2 * n + d, p);
    Distribute(2 * n, d, p);
    Distribute(2 * n, -d, p);
    Regroup(2, n, p);
    Regroup(2, g, p);
  }

  lemma {:induction false} FeesBound(x: nat, rates: seq<Rate>, m: nat)
    requires forall r :: r in rates ==> r.decimals <= m
    ensures var s, d := SumNumerators(rates, m), Pow10(m);
            2 * (s * x) - |rates| * d <= 2 * (Fees(x, rates) * d) <= 2 * (s * x) + |rates| * d
  {
    if rates != [] {
      var front, last := rates[..|rates| - 1], rates[|rates| - 1];
      FeesBound(x, front, m);
      FeeBound(x, last, m);
      var s0, s1, d := SumNumerators(front, m), Scaled(last, m), Pow10(m);
      Distribute(s0, s1, x);
      Distribute(Fees(x, front), RelativeFee(x, last), d);
      Distribute(|front|, 1, d);
    }
  }

  lemma {:induction false} FeesMonotone(x: nat, y: nat, rates: seq<Rate>)
    requires x <= y
    ensures Fees(x, rates) <= Fees(y, rates)
  {
    if rates != [] {
      FeesMonotone(x, y, rates[..|rates| - 1]);
      var r := rates[|rates| - 1];
      assert r.numerator * x <= r.numerator * y;
      RoundMonotone(r.numerator * x, r.numerator * y, Pow10(r.decimals));
    }
  }

  lemma {:induction false} NoFees(rates: seq<Rate>)
    ensures Fees(0, rates) == 0
  {
    if rates != [] {
      NoFees(rates[..|rates| - 1]);
      var r := rates[|rates| - 1];
      Divided(0, Pow10(r.decimals));
      assert r.numerator * 0 == 0;
    }
  }

  /** Whatever is below a fitting amount fits. */
  lemma FitsBelow(available: nat, rates: seq<Rate>, x: nat, y: nat)
    requires Fits(available, rates, y) && x <= y
    ensures Fits(available, rates, x)
  {
    FeesMonotone(x, y, rates);
  }

  // ---- the exact floor ----

  lemma FloorBounds(available: nat, rates: seq<Rate>)
    ensures var f, d, s := Floor(available, rates), Denominator(rates), Numerator(rates);
            f * (d + s) <= available * d < (f + 1) * (d + s)
  {
    var f, d, s := Floor(available, rates), Denominator(rates), Numerator(rates);
    Distribute(f, 1, d + s);
    hide Denominator, Numerator, Quotient;
  }

  /** Half as many units below the floor as there are makers, the amount fits. */
  lemma FitsSoon(available: nat, rates: seq<Rate>, x: nat)
    requires x + |rates| / 2 <= Floor(available, rates)
    ensures Fits(available, rates, x)
  {
    var f, d, s, n := Floor(available, rates), Denominator(rates), Numerator(rates), |rates|;
    FloorBounds(available, rates);
    FeesBound(x, rates, MaxDecimals(rates));
    var fees := Fees(x, rates);
    SlackOk(available, f, x, fees, d, s, n);
  }

  lemma SlackOk(a: nat, f: nat, x: nat, fees: nat, d: nat, s: nat, n: nat)
    requires d > 0 && x + n / 2 <= f && f * (d + s) <= a * d && 2 * (fees * d) <= 2 * (s * x) + n * d
    ensures x + fees <= a
  {
    var h := n / 2;
    Grow(x + h, f, d + s);
    Expand(x, h, d, s);
    Grow(n, 2 * h + 1, d);
    Distribute(2 * h, 1, d);
    Regroup(2, h, d);
    if x + fees >= a + 1 {
      Grow(a + 1, x + fees, d);
      Distribute(x, fees, d);
      Distribute(a, 1, d);
    }
  }

  lemma Expand(x: int, h: nat, d: int, s: nat)
    ensures (x + h) * (d + s) >= x * d + s * x + h * d
  {
    Commute(x + h, d + s);
    Distribute(d, s, x + h);
    Commute(d, x + h);
    Distribute(x, h, d);
    Commute(s, x + h);
    Distribute(x, h, s);
    Commute(x, s);
    assert h * s >= 0;
  }

  /** No amount fits that is more than half as many units above the floor as there are makers. */
  lemma FitsNearFloor(available: nat, rates: seq<Rate>, x: nat)
    requires Fits(available, rates, x)
    ensures x <= Floor(available, rates) + (|rates| + 1) / 2
  {
    var f, d, s, n := Floor(available, rates), Denominator(rates), Numerator(rates), |rates|;
    FloorBounds(available, rates);
    FeesBound(x, rates, MaxDecimals(rates));
    ExcessOk(available, f, x, Fees(x, rates), d, s, n);
  }

  lemma ExcessOk(a: nat, f: nat, x: nat, fees: nat, d: nat, s: nat, n: nat)
    requires d > 0 && x + fees <= a && a * d < (f + 1) * (d + s) && 2 * (s * x) - n * d <= 2 * (fees * d)
    ensures x <= f + (n + 1) / 2
  {
    var h := (n + 1) / 2;
    if x >= f + 1 + h {
      Grow(x + fees, a, d);
      Distribute(x, fees, d);
      Expand(x, 0, d, s);
      Grow(f + 1 + h, x, d + s);
      Distribute(f + 1, h, d + s);
      Commute(h, d + s);
      Grow(d, d + s, h);
      Commute(d, h);
      Grow(n, 2 * h, d);
      Regroup(2, h, d);
      Exact(x, d, s);
      assert false;
    }
  }

  lemma Exact(x: int, d: int, s: int)
    ensures x * (d + s) == x * d + s * x
  {
    Commute(x, d + s);
    Distribute(d, s, x);
    Commute(d, x);
  }

  // ---- the result ----

  /** What the sweep amount is, in terms of the fees actually charged. */
  ghost predicate IsSweep(available: nat, rates: seq<Rate>, r: nat) {
    && Fits(available, rates, r)
    && r <= Floor(available, rates)
    && (forall x :: r < x <= Floor(available, rates) ==> !Fits(available, rates, x))
  }

  lemma FeesStep(x: nat, rates: seq<Rate>)
    ensures (Fees(x + 1, rates) as int - Fees(x, rates) as int) * Denominator(rates) <= Numerator(rates)
      + |rates| * Denominator(rates)
  {
    hide Fees, SumNumerators, Pow10, MaxDecimals;
    var d, s := Denominator(rates), Numerator(rates);
    var p: int, q: int := Fees(x, rates), Fees(x + 1, rates);
    FeesBound(x, rates, MaxDecimals(rates));
    FeesBound(x + 1, rates, MaxDecimals(rates));
    Commute(s, x + 1);
    Distribute(x, 1, s);
    Commute(x, s);
    Distribute(q, -p, d);
    Negate(p, d);
  }

  lemma Negate(a: int, b: int)
    ensures (-a) * b == -(a * b)
  {
  }

  /** What is left unspent is below one unit, the sum of the rates and one unit a maker. */
  ghost predicate LittleLeft(available: nat, rates: seq<Rate>, r: nat) {
    (available - r - Fees(r, rates)) * Denominator(rates) < Denominator(rates) + Numerator(rates)
      + |rates| * Denominator(rates)
  }

  lemma ResidualBound(available: nat, rates: seq<Rate>, r: nat)
    requires IsSweep(available, rates, r)
    ensures LittleLeft(available, rates, r)
  {
    if r == Floor(available, rates) { ResidualAtFloor(available, rates); }
    else { ResidualBelowFloor(available, rates, r); }
    hide LittleLeft, Floor;
  }

  lemma ResidualAtFloor(available: nat, rates: seq<Rate>)
    ensures LittleLeft(available, rates, Floor(available, rates))
  {
    hide Fees, SumNumerators, Pow10, MaxDecimals;
    var f, d, s, n := Floor(available, rates), Denominator(rates), Numerator(rates), |rates|;
    FloorBounds(available, rates);
    hide Floor;
    FeesBound(f, rates, MaxDecimals(rates));
    var fees: int := Fees(f, rates);
    hide Denominator, Numerator;
    Distribute(f, 1, d + s);
    Exact(f, d, s);
    Distribute(available, -(f + fees), d);
    Negate(f + fees, d);
    Distribute(f, fees, d);
    Grow(0, n, d);
    assert available - f - fees == available + -(f + fees);
  }

  lemma ResidualBelowFloor(available: nat, rates: seq<Rate>, r: nat)
    requires Fits(available, rates, r) && !Fits(available, rates, r + 1)
    ensures LittleLeft(available, rates, r)
  {
    hide Fees, Denominator, Numerator;
    var fees: int, next: int := Fees(r, rates), Fees(r + 1, rates);
    FeesStep(r, rates);
    Grow(available - r - fees, next - fees, Denominator(rates));
  }

  /** The result is the greatest fitting amount of all exactly when the amount after the floor does not fit. */
  lemma GreatestIff(available: nat, rates: seq<Rate>, r: nat)
    requires IsSweep(available, rates, r)
    ensures (forall x: nat :: Fits(available, rates, x) ==> x <= r) <==>
      !Fits(available, rates, Floor(available, rates) + 1)
  {
    var f := Floor(available, rates);
    if Fits(available, rates, f + 1) {
      assert !(f + 1 <= r);
    } else {
      forall x: nat | Fits(available, rates, x) ensures x <= r {
        if x > f { FitsBelow(available, rates, f + 1, x); assert false; }
      }
    }
  }

  /** A balance of one unit and a rate of 0.001: the fee of one unit is nothing, and yet nothing is swept. */
  lemma NotTheGreatest()
    ensures var rates := [Rate(1, 3)]; IsSweep(1, rates, 0) && Fits(1, rates, 1)
  {
    var rates := [Rate(1, 3)];
    assert rates[..0] == [];
    assert Pow10(3) == 10 * (10 * (10 * Pow10(0))) == 1000;
    assert MaxDecimals(rates[..0]) == 0 && MaxDecimals(rates) == 3;
    assert SumNumerators(rates, 3) == SumNumerators(rates[..0], 3) + 1 * Pow10(0) == 1;
    assert RelativeFee(1, rates[0]) == 0;
    assert Fees(1, rates) == Fees(1, rates[..0]) + 0 == 0;
    NoFees(rates);
  }

  method TotalFee(amount: nat, rates: seq<Rate>) returns (sum: nat)
    ensures sum == Fees(amount, rates)
  {
    hide RelativeFee;
    sum := 0;
    for i := 0 to |rates|
      invariant sum == Fees(amount, rates[..i])
    {
      assert rates[..i + 1][..i] == rates[..i];
      sum := sum + RelativeFee(amount, rates[i]);
    }
    assert rates[..|rates|] == rates;
  }

  /** The rates as a sum over one denominator, the greatest power of ten among them. */
  method CommonDenominator(rates: seq<Rate>) returns (denominator: nat, sumNumerators: nat)
    ensures denominator == Denominator(rates) && sumNumerators == Numerator(rates)
  {
    hide Pow10, Scaled;
    var maxDecimals := 0;
    for i := 0 to |rates|
      invariant maxDecimals == MaxDecimals(rates[..i])
    {
      assert rates[..i + 1][..i] == rates[..i];
      if rates[i].decimals > maxDecimals { maxDecimals := rates[i].decimals; }
    }
    assert rates[..|rates|] == rates;
    denominator, sumNumerators := Pow10(maxDecimals), 0;
    for i := 0 to |rates|
      invariant sumNumerators == SumNumerators(rates[..i], maxDecimals)
    {
      assert rates[..i + 1][..i] == rates[..i];
      sumNumerators := sumNumerators + Scaled(rates[i], maxDecimals);
    }
  }

  lemma NothingToPay(available: nat)
    ensures Floor(available, []) == available && Fits(available, [], available)
  {
    assert Pow10(0) == 1;
  }

  /** `calculate_sweep_amount`; `tries` counts the corrections. */
  method CalculateSweepAmount(available: nat, rates: seq<Rate>) returns (amount: nat, tries: nat)
    ensures IsSweep(available, rates, amount) && LittleLeft(available, rates, amount)
    ensures amount + tries == Floor(available, rates) && tries <= |rates| / 2
  {
    hide Fees, LittleLeft, Denominator, Numerator, Product, Quotient;
    if rates == [] {
      NothingToPay(available);
      ResidualBound(available, rates, available);
      return available, 0;
    }
    var denominator, sumNumerators := CommonDenominator(rates);
    amount, tries := Quotient(Product(available, denominator), denominator + sumNumerators), 0;
    assert amount == Floor(available, rates);
    hide Floor;
    NoFees(rates);
    while amount > 0
      invariant amount + tries == Floor(available, rates) && tries <= |rates| / 2
      invariant forall x :: amount < x <= Floor(available, rates) ==> !Fits(available, rates, x)
    {
      var totalFee := TotalFee(amount, rates);
      if amount + totalFee <= available { break; }
      if tries == |rates| / 2 { FitsSoon(available, rates, amount); }
      amount, tries := amount - 1, tries + 1;
    }
    ResidualBound(available, rates, amount);
  }
}
