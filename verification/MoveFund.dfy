/** One attempt to empty an old pool: MoveFound with doMoveTokenFunds and doMoveBNBFunds
    (pubchain/move_fund.go), and the step that pops its job (bridge/pubchain_routine.go). Balances,
    fees and the outcome of sending are answers of the chain; None is a failed query. */
module MoveFund {
  import opened Common
  import opened MoveFundSchedule
  import PoolWindow

  /** The end of sending one transaction. */
  datatype Sending = Sent | AlreadyPassed | SendFailed

  /** What the worker of one token observes. */
  datatype TokenMove = TokenMove(balance: Option<int>, sending: Sending, status: bool, after: Option<int>)

  /** One listed token: the balance query that decides whether to move it, and the move. */
  datatype Token = Token(address: string, balance: Option<int>, move: TokenMove)

  /** What moving the native token observes: balance, quoted fee, nonce, the fee quoted again while
      sending, the sending, the receipt, and the balance afterwards. */
  datatype NativeMove = NativeMove(balance: Option<int>, fee: Option<int>, nonce: bool, feeAgain: Option<int>,
                                   sending: Sending, status: bool, after: Option<int>)

  datatype NativeResult = NativeResult(moved: bool, empty: bool, failed: bool)

  /** doMoveTokenFunds: empty, or an error. */
  function DoMoveTokenFunds(m: TokenMove): (r: (bool, bool)) {
    if m.balance.None? then (false, true)
    else if m.balance.value <= 0 then (true, false)
    else if m.sending.SendFailed? then (false, true)
    else if !m.status then (false, true)
    else if m.after.Some? && m.after.value <= 0 then (true, false)
    else (false, true)
  }

  /** doMoveBNBFunds with SendNativeTokenForMoveFund. */
  function DoMoveBNBFunds(m: NativeMove): NativeResult {
    var failed := NativeResult(false, false, true);
    if m.balance.None? || m.fee.None? then failed
    else if m.balance.value <= m.fee.value then NativeResult(true, true, false)
    else if !m.nonce || m.feeAgain.None? then failed
    else if m.balance.value <= m.feeAgain.value then NativeResult(true, true, false)
    else
      match m.sending
      case SendFailed => failed
      case AlreadyPassed =>
        if m.after.Some? && m.after.value <= m.fee.value then NativeResult(true, true, false) else failed
      case Sent =>
        if !m.status || m.after.None? then failed
        else NativeResult(true, m.after.value <= m.fee.value, false)
  }

  /** A read balance of the token was not positive. */
  predicate TokenSeenEmpty(t: Token) {
    || (t.balance.Some? && t.balance.value <= 0)
    || (t.move.balance.Some? && t.move.balance.value <= 0)
    || (t.move.after.Some? && t.move.after.value <= 0)
  }

  /** A read native balance was at most a fee quoted in the same attempt. */
  predicate NativeSeenEmpty(m: NativeMove) {
    || (m.balance.Some? && m.fee.Some? && m.balance.value <= m.fee.value)
    || (m.balance.Some? && m.feeAgain.Some? && m.balance.value <= m.feeAgain.value)
    || (m.after.Some? && m.fee.Some? && m.after.value <= m.fee.value)
  }

  lemma TokenEmptyWasSeen(t: Token)
    requires t.balance.Some? && (t.balance.value > 0 ==> DoMoveTokenFunds(t.move).0)
    ensures TokenSeenEmpty(t)
  {
  }

  lemma NativeEmptyWasSeen(m: NativeMove)
    ensures DoMoveBNBFunds(m).empty ==> NativeSeenEmpty(m)
    ensures DoMoveBNBFunds(m).empty ==> DoMoveBNBFunds(m).moved && !DoMoveBNBFunds(m).failed
    ensures DoMoveBNBFunds(m).moved ==> DoMoveBNBFunds(m).empty || m.sending == Sent
  {
  }

  predicate Listed(t: Token) {
    t.address != "native"
  }

  predicate NeedsMove(t: Token) {
    Listed(t) && t.balance.Some? && t.balance.value > 0
  }

  /** Every balance query of the first pass was answered. */
  predicate AllAnswered(tokens: seq<Token>) {
    forall i :: 0 <= i < |tokens| && Listed(tokens[i]) ==> tokens[i].balance.Some?
  }

  predicate SomeNeedsMove(tokens: seq<Token>) {
    exists i :: 0 <= i < |tokens| && NeedsMove(tokens[i])
  }

  /** All token workers, if any ran, ended with an empty balance. */
  predicate TokensEmptied(tokens: seq<Token>, nonce: bool) {
    && AllAnswered(tokens)
    && (SomeNeedsMove(tokens) ==>
          nonce && forall i :: 0 <= i < |tokens| && NeedsMove(tokens[i]) ==> DoMoveTokenFunds(tokens[i].move) == (true, false))
  }

  // ----- what the reads decide -----

  /** The worker of a token read its balance as gone: before sending, or after a transaction that was
      sent, or overtaken, and whose receipt is good. */
  predicate WorkerReadEmpty(m: TokenMove) {
    && m.balance.Some?
    && (m.balance.value <= 0 || (!m.sending.SendFailed? && m.status && m.after.Some? && m.after.value <= 0))
  }

  predicate TokenReadEmpty(t: Token) {
    t.balance.Some? && (t.balance.value <= 0 || WorkerReadEmpty(t.move))
  }

  /** At the quoted fee, at the one quoted again while sending, or after the sending, the native balance
      was too small to be moved. */
  predicate NativeReadEmpty(m: NativeMove) {
    && m.balance.Some? && m.fee.Some?
    && (|| m.balance.value <= m.fee.value
        || (m.nonce && m.feeAgain.Some?
            && (|| m.balance.value <= m.feeAgain.value
                || ((m.sending.AlreadyPassed? || (m.sending.Sent? && m.status))
                    && m.after.Some? && m.after.value <= m.fee.value))))
  }

  /** The native balance was sent off, and more has come in since. */
  predicate NativeSentOff(m: NativeMove) {
    && m.balance.Some? && m.fee.Some? && m.nonce && m.feeAgain.Some?
    && m.balance.value > m.fee.value && m.balance.value > m.feeAgain.value
    && m.sending.Sent? && m.status && m.after.Some? && m.after.value > m.fee.value
  }

  lemma TokenWorkerIff(m: TokenMove)
    ensures DoMoveTokenFunds(m) == (true, false) <==> WorkerReadEmpty(m)
    ensures DoMoveTokenFunds(m) == (false, true) <==> !WorkerReadEmpty(m)
  {
  }

  lemma NativeWorkerIff(m: NativeMove)
    ensures DoMoveBNBFunds(m).empty <==> NativeReadEmpty(m)
    ensures DoMoveBNBFunds(m).moved <==> NativeReadEmpty(m) || NativeSentOff(m)
    ensures DoMoveBNBFunds(m).failed <==> !NativeReadEmpty(m) && !NativeSentOff(m)
  {
  }

  predicate TokensReadEmpty(tokens: seq<Token>, nonce: bool) {
    && (forall i :: 0 <= i < |tokens| && Listed(tokens[i]) ==> TokenReadEmpty(tokens[i]))
    && (SomeNeedsMove(tokens) ==> nonce)
  }

  /** The attempt reads the whole pool as empty. */
  predicate PoolReadEmpty(tokens: seq<Token>, nonce: bool, native: NativeMove) {
    TokensReadEmpty(tokens, nonce) && NativeReadEmpty(native)
  }

  /** The attempt counts as a move, which ends the block. */
  predicate Moved(tokens: seq<Token>, nonce: bool, native: NativeMove) {
    || PoolReadEmpty(tokens, nonce, native)
    || (SomeNeedsMove(tokens) && TokensReadEmpty(tokens, nonce) && NativeSentOff(native))
  }

  lemma TokensEmptiedIff(tokens: seq<Token>, nonce: bool)
    ensures TokensEmptied(tokens, nonce) <==> TokensReadEmpty(tokens, nonce)
  {
    forall i | 0 <= i < |tokens|
      ensures DoMoveTokenFunds(tokens[i].move) == (true, false) <==> WorkerReadEmpty(tokens[i].move)
    {
      TokenWorkerIff(tokens[i].move);
    }
    if TokensEmptied(tokens, nonce) {
      forall i | 0 <= i < |tokens| && Listed(tokens[i])
        ensures TokenReadEmpty(tokens[i])
      {
        assert tokens[i].balance.value > 0 ==> NeedsMove(tokens[i]);
      }
    }
  }

  /** Only an empty pool is read empty: each listed non-native token was read at zero, and the native
      balance was read at no more than a quoted fee. */
  lemma ReadEmptyWasSeen(tokens: seq<Token>, nonce: bool, native: NativeMove)
    requires PoolReadEmpty(tokens, nonce, native)
    ensures forall i :: 0 <= i < |tokens| && Listed(tokens[i]) ==> TokenSeenEmpty(tokens[i])
    ensures NativeSeenEmpty(native)
  {
  }

  /** And an empty pool is read empty: when the first reads say so, and when everything was sent, with a
      good receipt, and the balances read afterwards are gone. */
  lemma EmptyIsRead(tokens: seq<Token>, nonce: bool, native: NativeMove)
    ensures (forall i :: 0 <= i < |tokens| && Listed(tokens[i]) ==> tokens[i].balance.Some? && tokens[i].balance.value <= 0)
            && native.balance.Some? && native.fee.Some? && native.balance.value <= native.fee.value
            ==> PoolReadEmpty(tokens, nonce, native)
    ensures nonce && (forall i :: 0 <= i < |tokens| && Listed(tokens[i]) ==> SentOff(tokens[i])) && NativeGone(native)
            ==> PoolReadEmpty(tokens, nonce, native)
  {
  }

  predicate SentOff(t: Token) {
    t.balance.Some? && t.move.balance.Some? && t.move.sending.Sent? && t.move.status && t.move.after == Some(0)
  }

  predicate NativeGone(m: NativeMove) {
    m.balance.Some? && m.fee.Some? && m.nonce && m.feeAgain.Some? && m.sending.Sent? && m.status && m.after == Some(0)
    && m.fee.value >= 0
  }

  /** MoveFound. With a known current pool the job leaves the schedule exactly when the old pool was
      found empty, and otherwise comes back 3 blocks later. Called without one, it does nothing at all:
      its only caller rules that out. */
  method MoveFound(queue: MoveFundQueue, height: int, chainType: string, pool: string, currentPoolKnown: bool,
                   tokens: seq<Token>, nonce: bool, native: NativeMove) returns (moved: bool)
    requires queue.Valid() && height + RETRYGAP <= MAXINT64
    modifies queue
    ensures queue.Valid()
    ensures queue.items ==
      if !currentPoolKnown || PoolReadEmpty(tokens, nonce, native) then old(queue.items)
      else Added(old(queue.items), Item(pool, height + RETRYGAP, chainType))
    ensures moved <==> currentPoolKnown && Moved(tokens, nonce, native)
  {
    if !currentPoolKnown {
      return false;
    }
    TokensEmptiedIff(tokens, nonce);
    NativeWorkerIff(native);
    var needToMove: seq<Token> := [];
    for i := 0 to |tokens|
      invariant queue.Valid() && queue.items == old(queue.items)
      invariant forall j :: 0 <= j < i && Listed(tokens[j]) ==> tokens[j].balance.Some?
      invariant forall t :: t in needToMove ==> exists j :: 0 <= j < i && tokens[j] == t && NeedsMove(t)
      invariant forall j :: 0 <= j < i && NeedsMove(tokens[j]) ==> tokens[j] in needToMove
    {
      if tokens[i].address != "native" {
        if tokens[i].balance.None? {
          assert !AllAnswered(tokens);
          queue.AddMoveFundItem(pool, height + RETRYGAP, chainType);
          return false;
        }
        if tokens[i].balance.value > 0 {
          needToMove := needToMove + [tokens[i]];
        }
      }
    }
    assert AllAnswered(tokens);
    if |needToMove| == 0 {
      assert !SomeNeedsMove(tokens);
      var r := DoMoveBNBFunds(native);
      if r.empty {
        return true;
      }
      queue.AddMoveFundItem(pool, height + RETRYGAP, chainType);
      return false;
    }
    assert needToMove[0] in needToMove && SomeNeedsMove(tokens);
    if !nonce {
      queue.AddMoveFundItem(pool, height + RETRYGAP, chainType);
      return false;
    }
    var emptyERC20Tokens := RunWorkers(needToMove);
    WorkersDecide(tokens, needToMove, emptyERC20Tokens);
    if !emptyERC20Tokens {
      queue.AddMoveFundItem(pool, height + RETRYGAP, chainType);
      return false;
    }
    var r := DoMoveBNBFunds(native);
    NativeEmptyWasSeen(native);
    if r.empty {
      return true;
    }
    queue.AddMoveFundItem(pool, height + RETRYGAP, chainType);
    return r.moved;
  }

  /** The flag that every worker may clear. */
  method RunWorkers(needToMove: seq<Token>) returns (emptyERC20Tokens: bool)
    ensures emptyERC20Tokens <==> forall t :: t in needToMove ==> DoMoveTokenFunds(t.move) == (true, false)
  {
    emptyERC20Tokens := true;
    for i := 0 to |needToMove|
      invariant emptyERC20Tokens <==> forall j :: 0 <= j < i ==> DoMoveTokenFunds(needToMove[j].move) == (true, false)
    {
      var (tokenIsEmpty, failed) := DoMoveTokenFunds(needToMove[i].move);
      if failed {
        emptyERC20Tokens := false;
      } else if !tokenIsEmpty {
        emptyERC20Tokens := false;
      }
    }
  }

  lemma WorkersDecide(tokens: seq<Token>, needToMove: seq<Token>, flag: bool)
    requires AllAnswered(tokens) && needToMove != []
    requires forall t :: t in needToMove ==> exists j :: 0 <= j < |tokens| && tokens[j] == t && NeedsMove(t)
    requires forall j :: 0 <= j < |tokens| && NeedsMove(tokens[j]) ==> tokens[j] in needToMove
    requires flag <==> forall t :: t in needToMove ==> DoMoveTokenFunds(t.move) == (true, false)
    ensures TokensEmptied(tokens, true) <==> flag
  {
    assert needToMove[0] in needToMove;
    if TokensEmptied(tokens, true) {
      forall t | t in needToMove
        ensures DoMoveTokenFunds(t.move) == (true, false)
      {
        var j :| 0 <= j < |tokens| && tokens[j] == t && NeedsMove(t);
      }
    }
  }

  /** The fund-moving step of a public chain block: nothing is popped before the pools are known and the
      other queries have succeeded (ready); then pop a due job, dial, and try. A job that was popped is
      back in the schedule afterwards, at its own height or 3 blocks later, unless the pool was found
      empty. */
  method MoveFundStep(queue: MoveFundQueue, pools: PoolWindow.State, ready: bool, currentHeight: int, chainType: string,
                      dial: bool, tokens: seq<Token>, nonce: bool, native: NativeMove)
    returns (isMoveFund: bool, ghost popped: Option<Item>)
    requires queue.Valid() && currentHeight <= MAXINT64 && PoolWindow.Consistent(pools)
    modifies queue
    ensures queue.Valid()
    ensures popped.None? ==> queue.items == old(queue.items) && !isMoveFund
    ensures popped.None? <==> pools.jolt.latest.None? || !ready
                              || forall k :: k in old(queue.items) && old(queue.items)[k].chainType == chainType
                                   ==> currentHeight - old(queue.items)[k].height <= MINCHECKBLOCKGAP
    ensures popped.Some? ==> popped.value.chainType == chainType && (isMoveFund <==> dial && Moved(tokens, nonce, native))
    ensures popped.Some? ==>
      && IsDue(old(queue.items), KeyOf(popped.value), currentHeight) && popped.value == old(queue.items)[KeyOf(popped.value)]
      && var rest := old(queue.items) - {KeyOf(popped.value)};
         queue.items ==
           if !dial then Added(rest, popped.value)
           else if PoolReadEmpty(tokens, nonce, native) then rest
           else Added(rest, popped.value.(height := popped.value.height + RETRYGAP))
  {
    isMoveFund := false;
    popped := None;
    if pools.jolt.latest.None? || !ready {
      return;
    }
    var previous := queue.PopMoveFundItemAfterBlock(currentHeight, chainType);
    popped := previous;
    if previous.Some? {
      var item := previous.value;
      if !dial {
        queue.AddMoveFundItem(item.pool, item.height, chainType);
      } else {
        isMoveFund := MoveFound(queue, item.height, chainType, item.pool, pools.pub.latest.Some?, tokens, nonce, native);
      }
    }
  }
}
