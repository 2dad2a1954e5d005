/** Money arithmetic: the services compute naira in binary64 floats; every value
    that reaches the database is a whole number of kobo. This module states what a
    float operation may return, and shows that the services' formulas are then
    exactly integer kobo arithmetic. */
module Money {

  type Kobo = int

  // ---------------------------------------------------------------- integer side

  // The largest amount for which the error analysis below is carried out.
  const LIMIT: int := 10_000_000_000_000

  // Five percent of `total`, rounded to a kobo. `up` says where an exact half goes:
  // the float product decides it, so the model leaves it open.
  function FeeOf(total: Kobo, up: bool): (fee: Kobo)
    requires total >= 0
    ensures -10 <= 20 * fee - total <= 10
    ensures 0 <= fee <= total
  {
    if up then (total + 10) / 20 else (total + 9) / 20
  }

  // Nine tenths of the delivery fee, rounded to a kobo.
  function RiderShareOf(delivery: Kobo, up: bool): (share: Kobo)
    requires delivery >= 0
    ensures -5 <= 10 * share - 9 * delivery <= 5
    ensures 0 <= share <= delivery
  {
    if up then (9 * delivery + 5) / 10 else (9 * delivery + 4) / 10
  }

  // `fee` is five percent of `total`, a half having gone either way.
  predicate IsFeeOf(fee: Kobo, total: Kobo)
    requires total >= 0
  {
    fee == FeeOf(total, true) || fee == FeeOf(total, false)
  }

  predicate IsShareOf(share: Kobo, delivery: Kobo)
    requires delivery >= 0
  {
    share == RiderShareOf(delivery, true) || share == RiderShareOf(delivery, false)
  }

  // The comparison |paid - expected| > 0.01 in kobo. Equal amounts pass, two kobo
  // apart is refused; one kobo apart depends on the floats (`oneKoboOver`).
  predicate AmountMismatch(paid: Kobo, expected: Kobo, oneKoboOver: bool) {
    var d := if paid >= expected then paid - expected else expected - paid;
    d >= 2 || (d == 1 && oneKoboOver)
  }

  // ------------------------------------------------------------------ float side

  // Half a unit in the last place of binary64, as a relative error: 2^-53.
  const U: real := 1.0 / 9007199254740992.0

  // The binary64 values of the literals 0.05, 0.9 and 0.01.
  const FIVE_PERCENT: real := 3602879701896397.0 / 72057594037927936.0
  const NINETY_PERCENT: real := 8106479329266893.0 / 9007199254740992.0
  const ONE_CENT: real := 5764607523034235.0 / 576460752303423488.0

  function Abs(x: real): real {
    if x >= 0.0 then x else -x
  }

  // `x` is a possible floating-point result for the real number `exact`
  // (section 4.3.1 of IEEE 754-2019, kept only as a relative error bound).
  ghost predicate Rounded(x: real, exact: real) {
    Abs(x - exact) <= U * Abs(exact)
  }

  // `x` is a float read back from the decimal text of `kobo` hundredths.
  ghost predicate Naira(x: real, kobo: Kobo) {
    Rounded(x, kobo as real / 100.0)
  }

  // Number.prototype.toFixed(2), as a number of hundredths: the nearest one, the
  // larger on a tie, after the sign is set aside (section 21.1.3.3 of ECMA-262).
  function ToFixed2(x: real): int {
    if x >= 0.0 then (x * 100.0 + 0.5).Floor else -((-x * 100.0 + 0.5).Floor)
  }

  // Math.round: the nearest integer, ties upwards (section 21.3.2.28 of ECMA-262).
  function MathRound(x: real): int {
    (x + 0.5).Floor
  }

  lemma NearestHundredth(x: real, n: int)
    requires -0.5 < x * 100.0 - n as real < 0.5
    ensures ToFixed2(x) == n
  {
  }

  /** Math.round(amountNgn * 100): a kobo amount survives the trip through naira. */
  lemma KoboRoundTrip(kobo: Kobo, naira: real, scaled: real)
    requires 0 <= kobo <= LIMIT
    requires Naira(naira, kobo) && Rounded(scaled, naira * 100.0)
    ensures MathRound(scaled) == kobo
  {
    var k := kobo as real;
    assert -U * k <= naira * 100.0 - k <= U * k;
    assert U * k < 0.01;
    assert (scaled + 0.5).Floor == kobo;
  }

  /** parseFloat((a + b).toFixed(2)) adds the kobo amounts exactly. */
  lemma SumIsExact(a: Kobo, b: Kobo, x: real, y: real, sum: real)
    requires 0 <= a && 0 <= b && a + b <= LIMIT
    requires Naira(x, a) && Naira(y, b) && Rounded(sum, x + y)
    ensures ToFixed2(sum) == a + b
  {
    NearestHundredth(sum, a + b);
  }

  /** parseFloat((a - b).toFixed(2)) subtracts the kobo amounts exactly, whichever is larger. */
  lemma DifferenceIsExact(a: Kobo, b: Kobo, x: real, y: real, diff: real)
    requires 0 <= a <= LIMIT && 0 <= b <= LIMIT
    requires Naira(x, a) && Naira(y, b) && Rounded(diff, x - y)
    ensures ToFixed2(diff) == a - b
  {
    NearestHundredth(diff, a - b);
  }

  lemma ToFixed2IsNear(x: real)
    requires x >= 0.0
    ensures -0.5 <= ToFixed2(x) as real - x * 100.0 <= 0.5
  {
  }

  lemma TotalsRefineKobo(item: Kobo, delivery: Kobo, x: real, y: real, sum: real, riderProduct: real)
    requires 0 <= item && 0 <= delivery && item + delivery <= LIMIT
    requires Naira(x, item) && Naira(y, delivery) && Rounded(sum, x + y)
    requires Rounded(riderProduct, y * NINETY_PERCENT)
    ensures ToFixed2(sum) == item + delivery
    ensures IsShareOf(ToFixed2(riderProduct), delivery)
  {
    SumIsExact(item, delivery, x, y, sum);
    RiderFloatIsNear(delivery, y, riderProduct);
  }

  /** The whole of `create`: whatever the float operations return within their error
      bound, the four stored amounts are the integer ones, up to where a half goes. */
  lemma CreateRefinesKobo(
    item: Kobo, delivery: Kobo, x: real, y: real, sum: real,
    t: real, feeProduct: real, f: real, payoutDiff: real, riderProduct: real)
    requires 0 <= item && 0 <= delivery && item + delivery <= LIMIT
    requires Naira(x, item) && Naira(y, delivery) && Rounded(sum, x + y)
    requires Naira(t, ToFixed2(sum)) && Rounded(feeProduct, t * FIVE_PERCENT)
    requires Naira(f, ToFixed2(feeProduct)) && Rounded(payoutDiff, t - f)
    requires Rounded(riderProduct, y * NINETY_PERCENT)
    ensures ToFixed2(sum) == item + delivery
    ensures IsFeeOf(ToFixed2(feeProduct), item + delivery)
    ensures ToFixed2(payoutDiff) == item + delivery - ToFixed2(feeProduct)
    ensures IsShareOf(ToFixed2(riderProduct), delivery)
  {
    TotalsRefineKobo(item, delivery, x, y, sum, riderProduct);
    SplitRefinesKobo(item + delivery, t, feeProduct, f, payoutDiff);
  }

  lemma SplitRefinesKobo(total: Kobo, t: real, feeProduct: real, f: real, payoutDiff: real)
    requires 0 <= total <= LIMIT && Naira(t, total) && Rounded(feeProduct, t * FIVE_PERCENT)
    requires Naira(f, ToFixed2(feeProduct)) && Rounded(payoutDiff, t - f)
    ensures IsFeeOf(ToFixed2(feeProduct), total)
    ensures ToFixed2(payoutDiff) == total - ToFixed2(feeProduct)
  {
    FeeFloatIsNear(total, t, feeProduct);
    DifferenceIsExact(total, ToFixed2(feeProduct), t, f, payoutDiff);
  }

  lemma FeeFloatIsNear(total: Kobo, t: real, product: real)
    requires 0 <= total <= LIMIT && Naira(t, total) && Rounded(product, t * FIVE_PERCENT)
    ensures IsFeeOf(ToFixed2(product), total)
  {
    var k := total as real;
    assert -U * k <= t * 100.0 - k <= U * k;
    assert U * k < 0.01 && t >= 0.0;
    assert product >= 0.0;
    ToFixed2IsNear(product);
    assert -0.01 < product * 2000.0 - k < 0.01;
    var n := ToFixed2(product);
    assert -10.01 < (20 * n - total) as real < 10.01;
  }

  lemma RiderFloatIsNear(delivery: Kobo, y: real, product: real)
    requires 0 <= delivery <= LIMIT && Naira(y, delivery) && Rounded(product, y * NINETY_PERCENT)
    ensures IsShareOf(ToFixed2(product), delivery)
  {
    var k := delivery as real;
    assert -U * k <= y * 100.0 - k <= U * k;
    assert U * k < 0.01 && y >= 0.0;
    assert product >= 0.0;
    ToFixed2IsNear(product);
    assert -0.1 < product * 1000.0 - 9.0 * k < 0.1;
    var n := ToFixed2(product);
    assert -5.1 < (10 * n - 9 * delivery) as real < 5.1;
  }

  // The float test Math.abs(paid - expected) > 0.01.
  ghost predicate FloatMismatch(diff: real) {
    Abs(diff) > ONE_CENT
  }

  /** The float amount check is the kobo check, for some reading of the one-kobo case. */
  lemma AmountCheckRefinesKobo(paid: Kobo, expected: Kobo, x: real, y: real, diff: real)
    requires 0 <= paid <= LIMIT && 0 <= expected <= LIMIT
    requires Naira(x, paid) && Naira(y, expected) && Rounded(diff, x - y)
    ensures FloatMismatch(diff) == AmountMismatch(paid, expected, FloatMismatch(diff))
  {
    var d := (paid - expected) as real;
    assert -0.01 < diff * 100.0 - d < 0.01;
    assert 0.0099999 < ONE_CENT < 0.0100001;
  }

  /** Why the one-kobo case stays open: with the real binary64 values, 0.02 against
      0.01 is accepted and 1.01 against 1.00 is refused. */
  lemma OneKoboGoesEitherWay()
    ensures
      var cent := ONE_CENT;
      Naira(cent, 1) && Naira(cent + cent, 2) && Rounded(cent, (cent + cent) - cent) && !FloatMismatch(cent)
    ensures
      var x := 4548635623644201.0 / 4503599627370496.0;
      Naira(x, 101) && Naira(1.0, 100) && Rounded(x - 1.0, x - 1.0) && FloatMismatch(x - 1.0)
  {
  }

  /** Fee row written at release: held - sellerPayout, against the fee agreed at creation. */
  lemma FeeRowBounds(total: Kobo, held: Kobo, up: bool)
    requires total >= 1 && -1 <= held - total <= 1
    ensures
      var fee := FeeOf(total, up);
      var row := held - (total - fee);
      -1 <= row - fee <= 1 && (total >= 11 ==> row >= 0)
  {
  }

  // ------------------------------------------- when the fee row is negative

  // `x` is the binary64 number nearest to n / 100: a 53-bit whole number over a power of two.
  ghost predicate NearestCents(x: real, n: nat, significand: int, scale: int) {
    && 4503599627370496 <= significand < 9007199254740992
    && scale > 0 && x == significand as real / scale as real
    && -50 <= 100 * significand - n * scale <= 50
  }

  // The binary64 values of 0.01 to 0.10: the significand, and the power of two it is divided by.
  function Cents(n: nat): (int, int)
    requires 1 <= n <= 10
  {
    match n
    case 1 => (5764607523034235, 576460752303423488)
    case 2 => (5764607523034235, 288230376151711744)
    case 3 => (8646911284551352, 288230376151711744)
    case 4 => (5764607523034235, 144115188075855872)
    case 5 => (7205759403792794, 144115188075855872)
    case 6 => (8646911284551352, 144115188075855872)
    case 7 => (5044031582654956, 72057594037927936)
    case 8 => (5764607523034235, 72057594037927936)
    case 9 => (6485183463413514, 72057594037927936)
    case 10 => (7205759403792794, 72057594037927936)
  }

  function CentsValue(n: nat): real
    requires 1 <= n <= 10
  {
    Cents(n).0 as real / Cents(n).1 as real
  }

  lemma CentsAreNearest(n: nat)
    requires 1 <= n <= 10
    ensures NearestCents(CentsValue(n), n, Cents(n).0, Cents(n).1)
    ensures Naira(CentsValue(n), n)
  {
  }

  /** The fee of an order, and with it the whole commission, rounds down to nothing
      exactly for totals of at most 9 kobo, and possibly at 10. */
  lemma FeeIsNothingIff(total: Kobo, up: bool)
    requires total >= 1
    ensures FeeOf(total, up) == 0 <==> total <= 9 || (total == 10 && !up)
  {
  }

  lemma FeeRowNegativeIff(total: Kobo, held: Kobo, up: bool)
    requires total >= 1 && -1 <= held - total <= 1
    ensures held - (total - FeeOf(total, up)) < 0 <==> held == total - 1 && FeeOf(total, up) == 0
  {
  }

  // Both operands are within a factor of two, so binary64 subtracts them without
  // rounding: the check of a payment one kobo short, as it comes out.
  lemma OneKoboShort(total: Kobo)
    requires 2 <= total <= 10
    ensures FloatMismatch(CentsValue(total - 1) - CentsValue(total)) <==> total in {4, 5, 7, 10}
  {
  }

  /** Exactly when a payment in whole kobo leads to a negative fee row: one that is positive,
      at most one kobo off and accepted by the float comparison does if and only if it is
      one kobo short of a total of 2, 3, 6, 8 or 9 kobo, wherever half kobo are rounded. */
  lemma NegativeFeeRowIff(total: Kobo, held: Kobo, up: bool)
    requires total >= 1 && held >= 1 && -1 <= held - total <= 1
    requires held < total <= 10 ==> !FloatMismatch(CentsValue(held) - CentsValue(total))
    ensures held - (total - FeeOf(total, up)) < 0 <==> held == total - 1 && total in {2, 3, 6, 8, 9}
  {
    FeeRowNegativeIff(total, held, up);
    FeeIsNothingIff(total, up);
    if held == total - 1 && total <= 10 {
      OneKoboShort(total);
    }
  }

  /** Such a row, in floats from end to end: an order of 2 kobo paid with 1. Whatever the
      operations return, the fee is 0, the payout 2, and the fee row minus one kobo. */
  lemma FeeRowCanBeNegative(feeProduct: real, payoutDiff: real, rowDiff: real)
    requires Rounded(feeProduct, CentsValue(2) * FIVE_PERCENT)
    requires Rounded(payoutDiff, CentsValue(2) - 0.0)
    requires Rounded(rowDiff, CentsValue(1) - CentsValue(2))
    ensures !FloatMismatch(CentsValue(1) - CentsValue(2))
    ensures ToFixed2(feeProduct) == 0 && ToFixed2(payoutDiff) == 2 && ToFixed2(rowDiff) == -1
  {
    CentsAreNearest(1);
    CentsAreNearest(2);
    OneKoboShort(2);
    FeeFloatIsNear(2, CentsValue(2), feeProduct);
    DifferenceIsExact(2, 0, CentsValue(2), 0.0, payoutDiff);
    DifferenceIsExact(1, 2, CentsValue(1), CentsValue(2), rowDiff);
  }
  // A manual hold may ask for a fraction of a kobo: `asked`, in kobo. It is accepted if the
  // float comparison lets it pass whatever its operations return, and the column rounds it.
  ghost predicate AcceptedFraction(asked: real, total: Kobo) {
    asked > 0.0 && forall x, y, diff :: Compared(asked, total, x, y, diff) ==> !FloatMismatch(diff)
  }

  ghost predicate Compared(asked: real, total: Kobo, x: real, y: real, diff: real) {
    Rounded(x, asked / 100.0) && Naira(y, total) && Rounded(diff, x - y)
  }

  function StoredKobo(asked: real): Kobo {
    (asked + 0.5).Floor
  }

  lemma ShortFractionAccepted(total: Kobo)
    requires 1 <= total <= 10
    ensures AcceptedFraction(total as real - 0.9, total) && StoredKobo(total as real - 0.9) == total - 1
  {
    var asked, k := total as real - 0.9, total as real;
    forall x, y, diff | Compared(asked, total, x, y, diff)
      ensures !FloatMismatch(diff)
    {
      assert -0.0001 < x * 100.0 - asked < 0.0001 && -0.0001 < y * 100.0 - k < 0.0001;
      assert -0.9002 < (x - y) * 100.0 < -0.8998;
      assert -0.0091 < diff < -0.0089;
    }
  }

  lemma AcceptedIsNear(asked: real, total: Kobo)
    requires AcceptedFraction(asked, total)
    ensures asked >= total as real - 1.1
  {
    var x, y := asked / 100.0, total as real / 100.0;
    assert Compared(asked, total, x, y, x - y);
    assert !FloatMismatch(x - y);
  }

  /** With fractions the five totals become all of 1 to 9, and 10 if its fee rounds down: some
      accepted hold leads to a negative fee row if and only if the order's fee is nothing. */
  lemma FractionalNegativeFeeRowIff(total: Kobo, up: bool)
    requires total >= 1
    ensures FeeOf(total, up) == 0 <==>
      exists asked: real ::
        AcceptedFraction(asked, total) && StoredKobo(asked) - (total - FeeOf(total, up)) < 0
  {
    FeeIsNothingIff(total, up);
    if FeeOf(total, up) == 0 {
      ShortFractionAccepted(total);
    } else {
      forall asked: real | AcceptedFraction(asked, total)
        ensures StoredKobo(asked) - (total - FeeOf(total, up)) >= 0
      {
        AcceptedIsNear(asked, total);
      }
    }
  }
}
