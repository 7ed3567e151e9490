/** The amounts of a cross-chain transfer: scaling to 18 digits on the way in, the fee, and scaling to
    the destination token on the way out (pubchain/tx_inbound.go, cosbridge/tx_outbound.go). */
module ValueFlow {
  import opened Common
  import opened Decimals
  import opened Fee

  const PRECISION: int := 18

  function AdjustInt(input: int, deltaPrecision: int): int {
    var val := Pow10(Abs(deltaPrecision));
    if deltaPrecision < 0 then Trunc(input, val) else input * val
  }

  function InboundAdjust(amount: int, decimals: int): int {
    var delta := PRECISION - decimals;
    if delta != 0 then AdjustInt(amount, delta) else amount
  }

  function OutboundAdjust(amount: int, decimals: int): int {
    var delta := decimals - PRECISION;
    if delta != 0 then AdjustInt(amount, delta) else amount
  }

  datatype Outcome =
    | Queued(amountOut: int, fee: int, height: int)
    | Dropped            // returned without an error and without a request
    | Failed             // returned an error
    | Panicked

  /** What scaling a raw amount to 18 digits keeps: everything for tokens of at most 18 decimals, and
      all but a remainder below one unit of the 18-digit amount otherwise. */
  ghost predicate ScaledIn(raw: int, decimals: int, scaled: int) {
    if decimals <= PRECISION then scaled == raw * Pow10(PRECISION - decimals)
    else 0 <= raw - scaled * Pow10(decimals - PRECISION) < Pow10(decimals - PRECISION)
  }

  /** What scaling an 18-digit amount to a token keeps: nothing is created, and less than one unit of
      the token is left behind. */
  ghost predicate ScaledOut(scaled: int, decimals: int, raw: int) {
    if decimals < PRECISION then 0 <= scaled - raw * Pow10(PRECISION - decimals) < Pow10(PRECISION - decimals)
    else raw == scaled * Pow10(decimals - PRECISION)
  }

  lemma AdjustConserves(amount: int, decimals: int)
    requires 0 <= amount
    ensures 0 <= InboundAdjust(amount, decimals) && ScaledIn(amount, decimals, InboundAdjust(amount, decimals))
    ensures 0 <= OutboundAdjust(amount, decimals) && ScaledOut(amount, decimals, OutboundAdjust(amount, decimals))
  {
    var val := Pow10(Abs(PRECISION - decimals));
    MulMono(0, amount, val);
    TruncBounds(amount, val);
  }

  /** A token of at most 18 decimals survives the trip to 18 digits and back. */
  lemma AdjustRoundTrip(amount: int, decimals: int)
    requires 0 <= amount && decimals <= PRECISION
    ensures OutboundAdjust(InboundAdjust(amount, decimals), decimals) == amount
  {
    var val := Pow10(Abs(PRECISION - decimals));
    MulMono(0, amount, val);
    AdjustConserves(amount, decimals);
    AdjustConserves(amount * val, decimals);
    var back := OutboundAdjust(amount * val, decimals);
    if decimals < PRECISION {
      assert 0 <= amount * val - back * val < val;
      assert amount * val - back * val == (amount - back) * val;
      if amount - back >= 1 {
        MulMono(1, amount - back, val);
      } else if amount - back <= -1 {
        MulMono(amount - back, -1, val);
      }
    }
  }

  /** The value identity of a queued transfer, for tokens of any number of decimals. */
  ghost predicate Conserved(amountIn: int, decimalsIn: int, fee: int, amountOut: int, decimalsOut: int) {
    exists scaled: int ::
      && ScaledIn(amountIn, decimalsIn, scaled)
      && 0 <= fee < scaled
      && ScaledOut(scaled - fee, decimalsOut, amountOut)
  }

  /** For decimals of at most 18 the identity reads
      amountIn * 10^(18-din) = fee + amountOut * 10^(18-dout) + dust, 0 <= dust < 10^(18-dout). */
  lemma ConservedUpTo18(amountIn: int, decimalsIn: int, fee: int, amountOut: int, decimalsOut: int)
    requires Conserved(amountIn, decimalsIn, fee, amountOut, decimalsOut)
    requires decimalsIn <= PRECISION && decimalsOut <= PRECISION
    ensures var dust := amountIn * Pow10(PRECISION - decimalsIn) - fee - amountOut * Pow10(PRECISION - decimalsOut);
            0 <= dust < Pow10(PRECISION - decimalsOut)
    ensures 0 <= fee < amountIn * Pow10(PRECISION - decimalsIn)
  {
  }

  /** A queued transfer pays out nothing exactly when what the fee leaves is below one unit of the
      destination token. */
  lemma PaysNothingIff(net: int, decimalsOut: int)
    requires 0 < net
    ensures OutboundAdjust(net, decimalsOut) == 0
            <==> decimalsOut < PRECISION && net < Pow10(PRECISION - decimalsOut)
  {
    AdjustConserves(net, decimalsOut);
    var val := Pow10(Abs(decimalsOut - PRECISION));
    var raw := OutboundAdjust(net, decimalsOut);
    if decimalsOut < PRECISION {
      if raw != 0 {
        MulMono(1, raw, val);
      }
    } else {
      MulMono(1, net, val);
    }
  }

  /** processDstInbound: a deposit on one public chain becomes a payout request on another. The
      answers of the node (price, destination token, height) are parameters; None is a failed or
      empty answer. */
  method ProcessDstInbound(amountIn: int, decimalsIn: Option<int>, price: Option<int>, feeModule: FeeModule,
                           denom: string, decimalsOut: Option<int>, receiverIsZero: bool, height: Option<int>)
    returns (r: Outcome)
    requires 0 <= amountIn && feeModule.Valid()
    ensures r.Queued? ==>
      && decimalsIn.Some? && decimalsOut.Some? && price.Some? && height == Some(r.height) && !receiverIsZero
      && Conserved(amountIn, decimalsIn.value, r.fee, r.amountOut, decimalsOut.value)
      && CalculateFee(feeModule, price.value, denom, InboundAdjust(amountIn, decimalsIn.value)) == Value(r.fee)
    ensures decimalsIn.None? || price.None? ==> r == Failed
    ensures decimalsIn.Some? && price.Some? ==>
      var scaled := InboundAdjust(amountIn, decimalsIn.value);
      match CalculateFee(feeModule, price.value, denom, scaled)
      case Panic => r == Panicked
      case Value(fee) =>
        if scaled <= fee then r == Dropped
        else if decimalsOut.None? then r == Failed
        else if receiverIsZero then r == Dropped
        else if height.None? then r == Failed
        else r.Queued? && r.height == height.value
  {
    if decimalsIn.None? {
      return Failed;
    }
    AdjustConserves(amountIn, decimalsIn.value);
    var token := InboundAdjust(amountIn, decimalsIn.value);
    ghost var scaled := token;
    if price.None? {
      return Failed;
    }
    var fee := CalculateFee(feeModule, price.value, denom, token);
    if fee.Panic? {
      return Panicked;
    }
    if token < fee.value || token == fee.value {
      return Dropped;
    }
    token := token - fee.value;
    if decimalsOut.None? {
      return Failed;
    }
    AdjustConserves(token, decimalsOut.value);
    token := OutboundAdjust(token, decimalsOut.value);
    if receiverIsZero {
      return Dropped;
    }
    if height.None? {
      return Failed;
    }
    assert ScaledIn(amountIn, decimalsIn.value, scaled);
    return Queued(token, fee.value, height.value);
  }

  /** processOutBoundRequest with processDemonAndFee: a deposit on the Joltify chain, whose amounts
      already have 18 digits, becomes a payout request. */
  method ProcessOutBoundRequest(amount: int, price: Option<int>, feeModule: FeeModule, denom: string,
                                decimals: Option<int>, height: int)
    returns (r: Outcome)
    requires 0 <= amount && feeModule.Valid()
    ensures r.Queued? ==>
      && decimals.Some? && price.Some? && r.height == height
      && 0 <= r.fee < amount && ScaledOut(amount - r.fee, decimals.value, r.amountOut)
      && CalculateFee(feeModule, price.value, denom, amount) == Value(r.fee)
    ensures decimals.Some? && price.Some? ==>
      match CalculateFee(feeModule, price.value, denom, amount)
      case Panic => r == Panicked
      case Value(fee) => if amount <= fee then r == Dropped else r.Queued?
    ensures decimals.None? ==> r == Failed
    ensures decimals.Some? && price.None? ==> r == Dropped
  {
    if decimals.None? {
      return Failed;
    }
    if price.None? {
      return Dropped;
    }
    var fee := CalculateFee(feeModule, price.value, denom, amount);
    if fee.Panic? {
      return Panicked;
    }
    if amount < fee.value || amount == fee.value {
      return Dropped;
    }
    var token := amount - fee.value;
    AdjustConserves(token, decimals.value);
    token := OutboundAdjust(token, decimals.value);
    return Queued(token, fee.value, height);
  }
}
