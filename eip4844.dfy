/** The blob-gas price rules of EIP-4844 ("Gas accounting"), which go-ethereum
    implements as eip4844.CalcExcessBlobGas and eip4844.CalcBlobFee and which
    the modelled code calls: the excess blob gas carried from a parent block,
    and the blob base fee, an integer approximation of
    MIN_BASE_FEE_PER_BLOB_GAS * e^(excess / BLOB_BASE_FEE_UPDATE_FRACTION). */
module Eip4844 {

  const TargetBlobGasPerBlock: nat := 393216
  const MinBaseFeePerBlobGas: nat := 1
  const BlobBaseFeeUpdateFraction: nat := 3338477

  /** calc_excess_blob_gas: the part of the parent's excess plus the parent's
      used blob gas that lies above the per-block target, or zero. */
  function CalcExcessBlobGas(parentExcessBlobGas: nat, parentBlobGasUsed: nat): (r: nat)
    ensures r <= parentExcessBlobGas + parentBlobGasUsed
    ensures r > 0 ==> r + TargetBlobGasPerBlock == parentExcessBlobGas + parentBlobGasUsed
    ensures parentExcessBlobGas + parentBlobGasUsed < TargetBlobGasPerBlock ==> r == 0
    ensures parentExcessBlobGas + parentBlobGasUsed >= TargetBlobGasPerBlock ==>
      r + TargetBlobGasPerBlock == parentExcessBlobGas + parentBlobGasUsed
  {
    if parentExcessBlobGas + parentBlobGasUsed < TargetBlobGasPerBlock then 0
    else parentExcessBlobGas + parentBlobGasUsed - TargetBlobGasPerBlock
  }

  lemma MulLess(a: nat, b: nat, c: nat)
    requires a > 0 && b < c
    ensures a * b < a * c
  {
  }

  lemma MulMono(a: nat, b: nat, c: nat)
    requires b <= c
    ensures a * b <= a * c
  {
  }

  /** Once the step counter exceeds the numerator, every next term of the
      series is smaller than the one before. */
  lemma TermShrinks(accum: nat, numerator: nat, denominator: nat, i: nat)
    requires accum > 0 && denominator >= 1 && i > numerator
    ensures accum * numerator / (denominator * i) < accum
  {
    MulLess(accum, numerator, i);
    MulMono(accum, i, denominator * i);
    assert accum * (denominator * i) == accum * denominator * i;
    var q := accum * numerator / (denominator * i);
    assert q * (denominator * i) <= accum * numerator;
    if q >= accum {
      MulMono(denominator * i, accum, q);
      assert false;
    }
  }

  /** The sum that fake_exponential accumulates: the terms
      factor*denominator * (numerator/denominator)^k / k!, each rounded down
      from the previous one, until a term is zero. */
  function SeriesFrom(i: nat, accum: nat, numerator: nat, denominator: nat): (r: nat)
    requires i >= 1 && denominator >= 1
    ensures r >= accum
    decreases if i <= numerator then numerator + 1 - i else 0, accum
  {
    if accum == 0 then 0
    else
      var next := accum * numerator / (denominator * i);
      if i > numerator then TermShrinks(accum, numerator, denominator, i); accum + SeriesFrom(i + 1, next, numerator, denominator)
      else accum + SeriesFrom(i + 1, next, numerator, denominator)
  }

  /** fake_exponential(factor, numerator, denominator). */
  function FakeExponential(factor: nat, numerator: nat, denominator: nat): nat
    requires denominator >= 1
  {
    SeriesFrom(1, factor * denominator, numerator, denominator) / denominator
  }

  /** get_base_fee_per_blob_gas: the blob base fee for a given excess. */
  function CalcBlobFee(excessBlobGas: nat): nat {
    FakeExponential(MinBaseFeePerBlobGas, excessBlobGas, BlobBaseFeeUpdateFraction)
  }

  /** The blob base fee never falls below its minimum, and it IS the minimum
      when there is no excess blob gas. */
  lemma BlobFeeAtLeastMinimum(excessBlobGas: nat)
    ensures CalcBlobFee(excessBlobGas) >= MinBaseFeePerBlobGas
    ensures excessBlobGas == 0 ==> CalcBlobFee(excessBlobGas) == MinBaseFeePerBlobGas
  {
    var d := BlobBaseFeeUpdateFraction;
    var s := SeriesFrom(1, MinBaseFeePerBlobGas * d, excessBlobGas, d);
    assert s >= d;
    if excessBlobGas == 0 {
      assert SeriesFrom(2, 0, 0, d) == 0;
      assert s == d;
    }
  }
}
