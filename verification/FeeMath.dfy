/** Protocol fees: `contracts/vault/src/fee_math.rs`. */
module FeeMath {
  import opened Checked
  import ShareMath

  const BPS_DENOMINATOR: int := 10_000

  /** The fee and the net amount; out-of-range arguments and overflow panic. */
  function CalculateProtocolFee(amount: int, feeBps: int): Outcome<(int, int)> {
    if amount < 0 then Panic else
    :- Insist(0 <= feeBps <= BPS_DENOMINATOR);
    if amount == 0 || feeBps == 0 then
      Done((0, amount))
    else
      var product :- Mul(amount, feeBps);
      var fee := Quotient(product, BPS_DENOMINATOR);
      Done((fee, amount - fee))
  }

  /** The fee written out in `accrue_yield`, which reports overflow as an error. */
  function InlineFee(amount: int, feeBps: int): Outcome<(int, int)> {
    if !(InI128(amount * feeBps)) then Error(MathOverflow) else
    var fee := Quotient(amount * feeBps, BPS_DENOMINATOR);
    :- Need(InI128(amount - fee), MathOverflow);
    Done((fee, amount - fee))
  }

  /** The two fee computations agree wherever both return. */
  lemma InlineFeeAgrees(amount: int, feeBps: int)
    requires amount > 0 && InI128(amount) && 0 <= feeBps <= BPS_DENOMINATOR
    ensures InlineFee(amount, feeBps).Done? == CalculateProtocolFee(amount, feeBps).Done?
    ensures InlineFee(amount, feeBps).Done? ==> InlineFee(amount, feeBps) == CalculateProtocolFee(amount, feeBps)
  {
    FeeWithinAmount(amount, feeBps);
  }

  /** Nothing is lost between fee and net, neither is negative, and the fee is
      the largest integer that does not overcharge. */
  lemma FeeWithinAmount(amount: int, feeBps: int)
    requires amount >= 0 && 0 <= feeBps <= BPS_DENOMINATOR
    ensures var fee := Quotient(amount * feeBps, BPS_DENOMINATOR);
            && 0 <= fee <= amount
            && fee * BPS_DENOMINATOR <= amount * feeBps < (fee + 1) * BPS_DENOMINATOR
  {
    assert 0 <= amount * feeBps <= amount * BPS_DENOMINATOR;
    ShareMath.FloorBounds(amount * feeBps, BPS_DENOMINATOR);
  }

  lemma FeeSplit(amount: int, feeBps: int)
    requires CalculateProtocolFee(amount, feeBps).Done?
    ensures var (fee, net) := CalculateProtocolFee(amount, feeBps).value;
            && fee + net == amount && fee >= 0 && net >= 0
            && fee * BPS_DENOMINATOR <= amount * feeBps < (fee + 1) * BPS_DENOMINATOR
  {
    FeeWithinAmount(amount, feeBps);
  }

  function Total(parts: seq<int>): int {
    if parts == [] then 0 else parts[0] + Total(parts[1..])
  }

  function FeeOf(amount: int, feeBps: int): int {
    Quotient(amount * feeBps, BPS_DENOMINATOR)
  }

  function TotalFee(parts: seq<int>, feeBps: int): int {
    if parts == [] then 0 else FeeOf(parts[0], feeBps) + TotalFee(parts[1..], feeBps)
  }

  /** Splitting an amount in two loses at most one unit of fee. */
  lemma SplittingInTwo(x: int, y: int, feeBps: int)
    requires x >= 0 && y >= 0 && 0 <= feeBps <= BPS_DENOMINATOR
    ensures FeeOf(x, feeBps) + FeeOf(y, feeBps) <= FeeOf(x + y, feeBps) <= FeeOf(x, feeBps) + FeeOf(y, feeBps) + 1
  {
    FeeWithinAmount(x, feeBps);
    FeeWithinAmount(y, feeBps);
    FeeWithinAmount(x + y, feeBps);
    assert (x + y) * feeBps == x * feeBps + y * feeBps;
  }

  /** Reporting a yield in n parts never raises the total fee and lowers it by
      fewer than n units. */
  lemma {:induction false} SplittingYield(parts: seq<int>, feeBps: int)
    requires parts != [] && forall i :: 0 <= i < |parts| ==> parts[i] >= 0
    requires 0 <= feeBps <= BPS_DENOMINATOR
    ensures 0 <= Total(parts)
    ensures TotalFee(parts, feeBps) <= FeeOf(Total(parts), feeBps) < TotalFee(parts, feeBps) + |parts|
  {
    var rest := parts[1..];
    if rest == [] {
      assert Total(parts) == parts[0];
    } else {
      SplittingYield(rest, feeBps);
      SplittingInTwo(parts[0], Total(rest), feeBps);
    }
  }
}
