/** Amount splitting and rounding: payment-policy.service.ts and the deposit split. */
module Policy {
  import opened Common

  const MAX_FEE_BPS: nat := 9000
  const BPS: nat := 10000

  /** `feeBps` and `releaseDelay` (in milliseconds), clamped as the service clamps its environment. */
  datatype Config = Config(feeBps: nat, releaseDelay: nat)

  ghost predicate ValidConfig(c: Config) {
    c.feeBps <= MAX_FEE_BPS
  }

  /** `Math.round(x / y)` on non-negative operands: the nearest integer, halves upwards. */
  function RoundDiv(x: nat, y: nat): (r: nat)
    requires y > 0
    ensures 2 * y * r <= 2 * x + y < 2 * y * (r + 1)
  {
    (2 * x + y) / (2 * y)
  }

  lemma MulStep(y: nat, a: int, b: int)
    ensures a < b ==> y * (a + 1) <= y * b
  {
  }

  /** The bounds in RoundDiv's contract admit one value only. */
  lemma RoundDivUnique(x: nat, y: nat, r: nat)
    requires y > 0
    requires 2 * y * r <= 2 * x + y < 2 * y * (r + 1)
    ensures r == RoundDiv(x, y)
  {
    var q := RoundDiv(x, y);
    MulStep(2 * y, r, q);
    MulStep(2 * y, q, r);
  }

  /** A share `part / whole` of `x` never exceeds `x`. */
  lemma RoundDivShare(x: nat, part: nat, whole: nat)
    requires whole > 0 && part <= whole
    ensures RoundDiv(x * part, whole) <= x
  {
    var r := RoundDiv(x * part, whole);
    assert x * part <= x * whole;
    assert 2 * whole * (x + 1) == 2 * (x * whole) + 2 * whole;
    MulStep(2 * whole, x, r);
  }

  datatype Split = Split(gross: nat, fee: nat, net: nat)

  predicate Balanced(s: Split) {
    s.fee + s.net == s.gross
  }

  /** `computeSplit`: nothing is lost or created, and neither side is charged more than the gross. */
  function ComputeSplit(amount: nat, feeBps: nat): (s: Split)
    requires feeBps <= MAX_FEE_BPS
    ensures Balanced(s) && s.gross == amount
    ensures 2 * BPS * s.fee <= 2 * amount * feeBps + BPS < 2 * BPS * (s.fee + 1)
  {
    RoundDivShare(amount, feeBps, BPS);
    var fee := Min(amount, RoundDiv(amount * feeBps, BPS));
    Split(amount, fee, Max(0, amount - fee))
  }

  lemma PercentProduct(price: nat, percent: nat)
    requires 20 <= percent <= 30
    ensures 20 * price <= price * percent <= 30 * price
  {
    assert price * (percent - 20) >= 0;
    assert price * (30 - percent) >= 0;
  }

  lemma PercentBounds(price: nat, percent: nat)
    requires 20 <= percent <= 30
    ensures 20 * price - 50 <= 100 * RoundDiv(price * percent, 100) <= 30 * price + 50
  {
    PercentProduct(price, percent);
    var x := price * percent;
    var r := RoundDiv(x, 100);
    assert 200 * r <= 2 * x + 100 < 200 * (r + 1);
  }

  /** `computeDepositSplit`: the rounded percentage of the price, at least one unit and never more than the price. */
  function ComputeDepositSplit(price: nat, percent: nat, feeBps: nat): (s: Split)
    requires 1 <= price && 20 <= percent <= 30 && feeBps <= MAX_FEE_BPS
    ensures Balanced(s) && 1 <= s.gross <= price
    ensures s.gross > 1 ==> 200 * s.gross <= 2 * (price * percent) + 100
    ensures 2 * (price * percent) + 100 < 200 * (s.gross + 1)
    ensures 2 * BPS * s.fee <= 2 * s.gross * feeBps + BPS < 2 * BPS * (s.fee + 1)
    ensures 20 * price - 50 <= 100 * s.gross
    ensures s.gross == 1 || 100 * s.gross <= 30 * price + 50
  {
    RoundDivShare(price, percent, 100);
    PercentBounds(price, percent);
    var r := RoundDiv(price * percent, 100);
    ComputeSplit(Max(1, r), feeBps)
  }

  /** `canReleaseFunds`: the delay counts from completion; no completion, no release. */
  predicate CanRelease(c: Config, completedAt: Option<nat>, now: nat) {
    completedAt.Some? && completedAt.value + c.releaseDelay <= now
  }

  /** The platform's share of a refund, rounded half up. */
  function RefundShare(refund: nat, fee: nat, total: nat): (part: nat)
    requires fee <= total
    ensures part <= refund
    ensures 2 * total * part <= 2 * refund * fee + total
    ensures 2 * refund * fee <= 2 * total * part + total
  {
    if total == 0 then 0 else
      RoundDivShare(refund, fee, total);
      RoundDiv(refund * fee, total)
  }

  /** A refund of the whole charge returns exactly the recorded fee, hence exactly the recorded net. */
  lemma FullRefundShare(fee: nat, total: nat)
    requires fee <= total
    ensures RefundShare(total, fee, total) == fee
  {
    if total > 0 {
      assert 2 * total * fee <= 2 * (total * fee) + total < 2 * total * (fee + 1);
      RoundDivUnique(total * fee, total, fee);
    }
  }

  /** A refund no larger than the charge takes at most the fee from the platform and the net from the provider. */
  lemma PartialRefundShare(refund: nat, fee: nat, total: nat)
    requires fee <= total && refund <= total
    ensures RefundShare(refund, fee, total) <= fee
    ensures refund - RefundShare(refund, fee, total) <= total - fee
  {
    if total > 0 {
      assert refund * fee == fee * refund;
      RoundDivShare(fee, refund, total);
      CrossProduct(refund, fee, total);
      ShareAtLeast(refund * fee, total, fee - total + refund);
    }
  }

  lemma CrossProduct(refund: int, fee: int, total: int)
    requires fee <= total && refund <= total
    ensures total * (fee - total + refund) <= refund * fee
  {
    var x, y := total - refund, total - fee;
    assert x * y >= 0;
    assert x * y == total * y - refund * y;
    assert total * y == total * total - total * fee && refund * y == refund * total - refund * fee;
    assert total * (fee - total + refund) == total * fee - total * total + total * refund;
  }

  /** A rounded quotient is at least every integer below the exact one. */
  lemma ShareAtLeast(x: nat, y: nat, low: int)
    requires y > 0 && y * low <= x
    ensures low <= RoundDiv(x, y)
  {
    var r := RoundDiv(x, y);
    MulStep(2 * y, r, low);
    assert 2 * y * low == 2 * (y * low);
  }
}
