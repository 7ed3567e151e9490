/** The validator fee of common/fee.go: a share of the transfer, clamped between two dollar limits
    that are converted to token units at the current price. */
module Fee {
  import opened Common
  import opened Decimals

  datatype FeeModule = FeeModule(chainType: string, feeRatio: int, ceil: int, floor: int) {
    ghost predicate Valid() {
      0 <= feeRatio && 0 <= floor <= ceil
    }
  }

  /** NewDecWithPrec(n, k) is n * 10^-k. */
  function DecWithPrec(n: int, k: nat): int
    requires k <= 18
  {
    n * Pow10(18 - k)
  }

  function InitFeeModule(): map<string, FeeModule> {
    map[
      "ETH" := FeeModule("ETH", DecWithPrec(1, 4), DecWithPrec(1000, 0), DecWithPrec(25, 1)),
      "BSC" := FeeModule("BSC", DecWithPrec(1, 4), DecWithPrec(1000, 0), DecWithPrec(10, 2))
    ]
  }

  /** A dollar limit in token units. */
  function LimitAmount(limit: int, price: int, decimal: int): int
    requires price != 0
  {
    RoundInt(Quo(limit * Pow10(Abs(decimal)), price))
  }

  /** Dec.Quo divides by the price, so a zero price panics. */
  function DoGetFee(price: int, ceil: int, floor: int, feeRatio: int, amount: int, decimal: int): Checked<int> {
    var feeAmount := Share(amount, feeRatio);
    if price == 0 then Panic
    else
      var ceilAmount := LimitAmount(ceil, price, decimal);
      var floorAmount := LimitAmount(floor, price, decimal);
      if feeAmount < floorAmount then Value(floorAmount)
      else if feeAmount > ceilAmount then Value(ceilAmount)
      else Value(feeAmount)
  }

  function TokenDecimal(denom: string): int {
    if denom == "ujolt" then 6 else 18
  }

  /** NewCoin panics on a negative amount. */
  function CalculateFee(m: FeeModule, price: int, denom: string, amount: int): Checked<int> {
    var fee := DoGetFee(price, m.ceil, m.floor, m.feeRatio, amount, TokenDecimal(denom));
    if fee.Value? && fee.value < 0 then Panic else fee
  }

  /** Both configured modules are well formed. */
  lemma InitFeeModuleValid()
    ensures InitFeeModule().Keys == {"ETH", "BSC"}
    ensures forall c :: c in InitFeeModule() ==> InitFeeModule()[c].Valid() && InitFeeModule()[c].chainType == c
  {
  }

  /** The configured shares and limits: a hundredth of a percent, at least 2.5 dollars toward ETH and 0.1
      toward BSC, and 1000 dollars at most. */
  lemma ConfiguredLimits()
    ensures forall c :: c in InitFeeModule() ==> InitFeeModule()[c].feeRatio * 10_000 == PREC
    ensures forall c :: c in InitFeeModule() ==> InitFeeModule()[c].ceil == 1000 * PREC
    ensures 2 * InitFeeModule()["ETH"].floor == 5 * PREC && 10 * InitFeeModule()["BSC"].floor == PREC
  {
    PowersOfTen();
  }

  lemma PowersOfTen()
    ensures Pow10(6) == 1_000_000 && Pow10(14) == 100_000_000_000_000 && Pow10(16) == 10_000_000_000_000_000
    ensures Pow10(17) == 100_000_000_000_000_000 && Pow10(18) == PREC
  {
    assert Pow10(4) == 10_000;
    assert Pow10(8) == 100_000_000;
    assert Pow10(12) == 1_000_000_000_000;
    assert Pow10(16) == 10_000_000_000_000_000;
  }

  /** A limit in whole dollars, of a token worth one dollar, is that many tokens: 10^6 units each for
      ujolt, and 10^18 units for every other token. */
  lemma LimitAtOneDollar(denom: string, dollars: nat)
    ensures LimitAmount(dollars * PREC, PREC, TokenDecimal(denom))
            == dollars * (if denom == "ujolt" then 1_000_000 else 1_000_000_000_000_000_000)
  {
    PowersOfTen();
    var units := Pow10(TokenDecimal(denom));
    var x := dollars * units;
    assert dollars * PREC * units == x * PREC;
    QuoExact(x);
    ChopExact(x);
  }

  /** x / 1 is x. */
  lemma QuoExact(x: nat)
    ensures Quo(x * PREC, PREC) == x * PREC
  {
    assert x * PREC * PREC * PREC == (x * PREC * PREC) * PREC;
    TruncBounds(x * PREC * PREC * PREC, PREC);
    assert Trunc(x * PREC * PREC * PREC, PREC) == x * PREC * PREC;
    ChopExact(x * PREC);
  }

  /** Each clamp amount is within 1/2 + 10^-18/2 + 10^-36 of the rational limit * 10^decimal / price,
      in spite of one truncation and two roundings. Both sides are multiplied by 2 * 10^36 * price. */
  lemma LimitErrorBound(limit: int, price: int, decimal: int)
    requires 0 <= limit && 0 < price
    ensures 2 * PREC2 * Abs(LimitAmount(limit, price, decimal) * price - limit * Pow10(Abs(decimal)))
            <= price * (PREC2 + PREC + 2)
  {
    MulMono(0, limit, Pow10(Abs(decimal)));
    QuoRoundError(limit * Pow10(Abs(decimal)), price);
  }

  lemma LimitMonotone(low: int, high: int, price: int, decimal: int)
    requires 0 <= low <= high && 0 < price
    ensures 0 <= LimitAmount(low, price, decimal) <= LimitAmount(high, price, decimal)
  {
    var val := Pow10(Abs(decimal));
    MulMono(low, high, val);
    MulMono(0, low, val);
    QuoRoundMono(low * val, high * val, price);
  }

  /** A dearer token never costs more units. */
  lemma LimitAntitone(limit: int, cheap: int, dear: int, decimal: int)
    requires 0 <= limit && 0 < cheap <= dear
    ensures LimitAmount(limit, dear, decimal) <= LimitAmount(limit, cheap, decimal)
  {
    MulMono(0, limit, Pow10(Abs(decimal)));
    QuoRoundAnti(limit * Pow10(Abs(decimal)), cheap, dear);
  }

  /** The first rounding of the proportional fee is exact; only RoundInt rounds. */
  lemma ProportionalFee(amount: int, feeRatio: int)
    ensures NearestEven(amount * feeRatio, RoundInt(Mul(ToDec(amount), feeRatio)))
  {
    assert ToDec(amount) * feeRatio == (amount * feeRatio) * PREC;
    ChopExact(amount * feeRatio);
    ChopNearest(amount * feeRatio);
  }

  /** The fee is the proportional share, moved to the nearer end of [floorAmount, ceilAmount] when it
      lies outside, and that interval is never empty. */
  lemma FeeClamped(m: FeeModule, price: int, denom: string, amount: int, share: int)
    requires m.Valid() && 0 < price
    requires NearestEven(amount * m.feeRatio, share)
    ensures var low := LimitAmount(m.floor, price, TokenDecimal(denom));
            var high := LimitAmount(m.ceil, price, TokenDecimal(denom));
            var fee := CalculateFee(m, price, denom, amount);
            && 0 <= low <= high
            && fee.Value? && low <= fee.value <= high
            && (low <= share <= high ==> fee.value == share)
            && (share < low ==> fee.value == low)
            && (share > high ==> fee.value == high)
  {
    ProportionalFee(amount, m.feeRatio);
    ChopUnique(amount * m.feeRatio, share);
    ChopUnique(amount * m.feeRatio, RoundInt(Mul(ToDec(amount), m.feeRatio)));
    LimitMonotone(m.floor, m.ceil, price, TokenDecimal(denom));
  }

  /** The proportional share, before clamping. */
  function Share(amount: int, feeRatio: int): int {
    RoundInt(Mul(ToDec(amount), feeRatio))
  }

  lemma ShareIs(amount: int, feeRatio: int)
    ensures Share(amount, feeRatio) == Chop(amount * feeRatio)
  {
    ProportionalFee(amount, feeRatio);
    ChopUnique(amount * feeRatio, Share(amount, feeRatio));
  }

  lemma ShareMonotone(feeRatio: int, small: int, large: int)
    requires 0 <= feeRatio && small <= large
    ensures Share(small, feeRatio) <= Share(large, feeRatio)
  {
    ShareIs(small, feeRatio);
    ShareIs(large, feeRatio);
    MulMono(small, large, feeRatio);
    ChopMono(small * feeRatio, large * feeRatio);
  }

  /** Sending more never costs a smaller fee. */
  lemma FeeMonotone(m: FeeModule, price: int, denom: string, small: int, large: int)
    requires m.Valid() && 0 < price && small <= large
    ensures CalculateFee(m, price, denom, small).Value? && CalculateFee(m, price, denom, large).Value?
    ensures CalculateFee(m, price, denom, small).value <= CalculateFee(m, price, denom, large).value
  {
    ShareMonotone(m.feeRatio, small, large);
    LimitMonotone(m.floor, m.ceil, price, TokenDecimal(denom));
  }

  /** With no usable price no fee is ever charged: zero panics, and a negative price panics or
      yields a zero fee. */
  lemma NonPositivePrice(m: FeeModule, price: int, denom: string, amount: int)
    requires m.Valid() && price <= 0 && 0 <= amount
    ensures price == 0 ==> CalculateFee(m, price, denom, amount).Panic?
    ensures CalculateFee(m, price, denom, amount).Value? ==> CalculateFee(m, price, denom, amount).value == 0
  {
    if price < 0 {
      NegativeLimit(m.floor, price, TokenDecimal(denom));
      NegativeLimit(m.ceil, price, TokenDecimal(denom));
      ProportionalFee(amount, m.feeRatio);
      MulMono(0, amount, m.feeRatio);
    }
  }

  lemma NegativeLimit(limit: int, price: int, decimal: int)
    requires 0 <= limit && price < 0
    ensures LimitAmount(limit, price, decimal) <= 0
  {
    var x := limit * Pow10(Abs(decimal));
    MulMono(0, limit, Pow10(Abs(decimal)));
    assert x * PREC * PREC >= 0;
    ChopMono(Trunc(x * PREC * PREC, price), 0);
    ChopMono(Quo(x, price), 0);
  }
}
