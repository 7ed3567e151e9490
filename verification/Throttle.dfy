/** When batches are fed: pause heights, block gaps and the one-batch-in-flight flag of the event loop
    (bridge/bridge_service.go for inbound, bridge/pubchain_routine.go for outbound). */
module Throttle {
  import opened Common
  import opened BatchOrder
  import opened RetryQueue

  const ROUNDBLOCK: int := 100
  const GROUPSIGN: int := 4
  const INBOUNDGAP: int := 8
  const OUTBOUNDGAP: int := 4
  const MAXFAILURES: int := 5

  /** The pause height after too many failures have been seen at a height. */
  function PauseAfter(latest: nat): int {
    (latest / ROUNDBLOCK + 1) * ROUNDBLOCK
  }

  /** The pause ends at the least multiple of 100 above the height. */
  lemma PauseMonotone(h: nat, l: nat)
    ensures h < PauseAfter(h) <= h + 100 && PauseAfter(h) % 100 == 0
    ensures h <= l ==> PauseAfter(h) <= PauseAfter(l)
  {
  }

  // ----- inbound -----

  /** One attempt to feed a batch: the block that triggered it and the chain height at that time. */
  datatype Feed = Feed(current: int, latest: int)

  datatype Inbound = Inbound(
    failed: nat,          // failedInbound
    pause: int,           // inboundPauseHeight
    wait: bool,           // inBoundWait
    firstTime: bool,
    done: bool,           // inBoundProcessDone
    previous: int,        // previousTssBlockInbound
    queued: nat,          // batches in the channel
    running: nat,         // batches being processed
    feeds: seq<Feed>)     // all attempts so far

  /** A new Joltify block. ready: every query before the throttle succeeded and the node is a signer;
      size: the retry map after the on-hold items were put back; keygen: a key generation runs; signer
      and account: the answers FeedTx gets, None for a failed query. */
  datatype Block = Block(current: nat, latest: nat, ready: bool, size: nat, keygen: bool,
                         signer: Option<bool>, account: Option<(uint64, uint64)>)

  /** FeedTx puts a batch on the channel. */
  predicate Fed(b: Block) {
    b.signer == Some(true) && b.account.Some? && b.size > 0
  }

  datatype InboundEvent =
    | NewBlock(block: Block)
    | Take               // the loop starts processInbound on a queued batch
    | ItemFailed         // an item of the running batch failed
    | ItemSucceeded      // one succeeded: the failures are forgotten
    | BatchDone          // processInbound returned

  function InitInbound(height: nat): Inbound {
    Inbound(0, 0, false, true, true, height, 0, 0, [])
  }

  function Paused(s: Inbound, b: Block): Inbound {
    if s.failed > MAXFAILURES then s.(failed := 0, pause := PauseAfter(b.latest), wait := true) else s
  }

  /** The throttle part of the new-block branch. */
  function OnBlock(s: Inbound, b: Block, rollbackGap: nat): Inbound {
    if !b.ready then s
    else
      var p := Paused(s, b);
      if b.latest < p.pause then p
      else
        var q := p.(wait := false);
        var processable := if b.current > rollbackGap then b.current - rollbackGap else 0;
        if processable - q.previous < INBOUNDGAP || b.size == 0 then q
        else if b.size < GROUPSIGN && q.firstTime then q.(firstTime := false)
        else if !q.done || b.keygen then q
        else Attempted(q, b)
  }

  function Attempted(q: Inbound, b: Block): Inbound {
    q.(done := false, previous := b.current, firstTime := true,
       queued := if Fed(b) then q.queued + 1 else q.queued,
       feeds := q.feeds + [Feed(b.current, b.latest)])
  }

  predicate Possible(s: Inbound, e: InboundEvent) {
    match e
    case NewBlock(_) => true
    case Take => s.queued > 0
    case ItemFailed => s.running > 0
    case ItemSucceeded => s.running > 0
    case BatchDone => s.running > 0
  }

  function Apply(s: Inbound, e: InboundEvent, rollbackGap: nat): Inbound
    requires Possible(s, e)
  {
    match e
    case NewBlock(b) => OnBlock(s, b, rollbackGap)
    case Take => s.(queued := s.queued - 1, running := s.running + 1)
    case ItemFailed => if s.wait then s else s.(failed := s.failed + 1)
    case ItemSucceeded => s.(failed := 0)
    case BatchDone => s.(running := s.running - 1, done := true)
  }

  ghost predicate ValidRun(s: Inbound, events: seq<InboundEvent>, rollbackGap: nat)
    decreases events
  {
    events == [] || (Possible(s, events[0]) && ValidRun(Apply(s, events[0], rollbackGap), events[1..], rollbackGap))
  }

  ghost function After(s: Inbound, events: seq<InboundEvent>, rollbackGap: nat): Inbound
    requires ValidRun(s, events, rollbackGap)
    decreases events
  {
    if events == [] then s else After(Apply(s, events[0], rollbackGap), events[1..], rollbackGap)
  }

  ghost predicate Spaced(feeds: seq<Feed>, gap: int) {
    forall i :: 0 < i < |feeds| ==> feeds[i].current - feeds[i - 1].current >= gap
  }

  ghost predicate Inv(s: Inbound, rollbackGap: nat) {
    && s.queued + s.running <= 1
    && (s.done ==> s.queued + s.running == 0)
    && Spaced(s.feeds, 8 + rollbackGap)
    && s.previous >= 0
    && (s.feeds != [] ==> s.previous == s.feeds[|s.feeds| - 1].current)
  }

  /** The guards of a feed attempt: no pause, old or new; the gap; a full group, or a second look; no
      batch said to be in flight; no key generation. */
  predicate Attempts(s: Inbound, b: Block, rollbackGap: nat) {
    && b.ready && s.failed <= 5 && b.latest >= s.pause
    && b.current - (if b.current > rollbackGap then rollbackGap else b.current) - s.previous >= 8
    && b.size > 0 && (b.size >= 4 || !s.firstTime) && s.done && !b.keygen
  }

  lemma AttemptsIff(s: Inbound, b: Block, rollbackGap: nat)
    ensures Attempts(s, b, rollbackGap) <==> OnBlock(s, b, rollbackGap).feeds == s.feeds + [Feed(b.current, b.latest)]
    ensures !Attempts(s, b, rollbackGap) <==> OnBlock(s, b, rollbackGap).feeds == s.feeds
  {
    PauseMonotone(b.latest, b.latest);
    assert |s.feeds + [Feed(b.current, b.latest)]| != |s.feeds|;
  }

  /** All guards but the size of the group. */
  predicate Open(s: Inbound, b: Block, rollbackGap: nat) {
    && b.ready && s.failed <= 5 && b.latest >= s.pause
    && b.current - (if b.current > rollbackGap then rollbackGap else b.current) - s.previous >= 8
    && b.size > 0 && s.done && !b.keygen
  }

  /** A small group waits for a second look, and the second look feeds it; after every attempt the wait
      starts anew. */
  lemma SecondLook(s: Inbound, b: Block, next: Block, rollbackGap: nat)
    requires Open(s, b, rollbackGap) && Open(s, next, rollbackGap) && s.firstTime
    ensures b.size < 4 ==>
      !Attempts(s, b, rollbackGap) && Attempts(OnBlock(s, b, rollbackGap), next, rollbackGap)
    ensures b.size >= 4 ==> Attempts(s, b, rollbackGap)
    ensures Attempts(s, b, rollbackGap) ==> OnBlock(s, b, rollbackGap).firstTime
  {
  }

  /** What failures do: the first block that sees more than 5 pauses the loop up to the next multiple of
      100, counts no failure meanwhile, and starts counting from 0; the first block past the pause
      counts again. */
  lemma PauseProtocol(s: Inbound, b: Block, rollbackGap: nat)
    requires b.ready
    ensures var t := OnBlock(s, b, rollbackGap);
            if s.failed > MAXFAILURES then t == s.(failed := 0, pause := PauseAfter(b.latest), wait := true)
            else t.failed == s.failed && t.pause == s.pause && t.wait == (s.wait && b.latest < s.pause)
  {
    PauseMonotone(b.latest, b.latest);
  }

  function Failures(k: nat): seq<InboundEvent> {
    seq(k, _ => ItemFailed)
  }

  /** k failures in a row count as k, unless the loop is paused; a success forgets them. */
  lemma {:induction false} FailuresCount(s: Inbound, k: nat, rollbackGap: nat)
    requires s.running > 0
    ensures ValidRun(s, Failures(k), rollbackGap)
    ensures After(s, Failures(k), rollbackGap) == s.(failed := if s.wait then s.failed else s.failed + k)
    ensures Apply(s, ItemSucceeded, rollbackGap) == s.(failed := 0)
    decreases k
  {
    if k > 0 {
      assert Failures(k)[0] == ItemFailed && Failures(k)[1..] == Failures(k - 1);
      FailuresCount(Apply(s, ItemFailed, rollbackGap), k - 1, rollbackGap);
    }
  }

  /** A block either makes one attempt or leaves everything but the pause variables alone. */
  lemma BlockShape(s: Inbound, b: Block, rollbackGap: nat)
    ensures var t := OnBlock(s, b, rollbackGap);
            || (t.feeds == s.feeds && t.previous == s.previous && t.queued == s.queued && t.running == s.running && t.done == s.done)
            || (s.done && !t.done && b.size > 0 && t.running == s.running
                && b.current - (if b.current > rollbackGap then rollbackGap else b.current) - s.previous >= INBOUNDGAP
                && t.queued == (if Fed(b) then s.queued + 1 else s.queued)
                && t.feeds == s.feeds + [Feed(b.current, b.latest)] && t.previous == b.current)
  {
  }

  lemma BlockKeepsInv(s: Inbound, b: Block, rollbackGap: nat)
    requires Inv(s, rollbackGap)
    ensures Inv(OnBlock(s, b, rollbackGap), rollbackGap)
  {
    BlockShape(s, b, rollbackGap);
  }

  lemma StepKeepsInv(s: Inbound, e: InboundEvent, rollbackGap: nat)
    requires Inv(s, rollbackGap) && Possible(s, e)
    ensures Inv(Apply(s, e, rollbackGap), rollbackGap)
  {
    match e
    case NewBlock(b) => BlockKeepsInv(s, b, rollbackGap);
    case _ =>
  }

  /** Over every run at most one inbound batch is queued or running, and consecutive feed attempts are
      at least 8 blocks plus the rollback gap apart. */
  lemma {:induction false} InboundThrottled(s: Inbound, events: seq<InboundEvent>, rollbackGap: nat)
    requires Inv(s, rollbackGap) && ValidRun(s, events, rollbackGap)
    ensures Inv(After(s, events, rollbackGap), rollbackGap) && s.feeds <= After(s, events, rollbackGap).feeds
    decreases events
  {
    if events != [] {
      StepKeepsInv(s, events[0], rollbackGap);
      InboundThrottled(Apply(s, events[0], rollbackGap), events[1..], rollbackGap);
    }
  }

  lemma InitKeepsInv(height: nat, rollbackGap: nat)
    ensures Inv(InitInbound(height), rollbackGap)
  {
  }

  ghost predicate HeightsFrom(events: seq<InboundEvent>, h: nat) {
    forall e :: e in events && e.NewBlock? ==> e.block.latest >= h
  }

  lemma {:induction false} PauseIsKept(s: Inbound, events: seq<InboundEvent>, rollbackGap: nat, h: nat)
    requires ValidRun(s, events, rollbackGap) && HeightsFrom(events, h) && s.pause >= PauseAfter(h)
    ensures var t := After(s, events, rollbackGap);
            && s.feeds <= t.feeds
            && forall i :: |s.feeds| <= i < |t.feeds| ==> t.feeds[i].latest >= PauseAfter(h)
    decreases events
  {
    if events != [] {
      var t := Apply(s, events[0], rollbackGap);
      assert events[0] in events && forall e :: e in events[1..] ==> e in events;
      if events[0].NewBlock? {
        PauseMonotone(h, events[0].block.latest);
      }
      PauseIsKept(t, events[1..], rollbackGap, h);
    }
  }

  /** Once more than 5 failures are seen at height h, nothing is fed below (h / 100 + 1) * 100 in any
      continuation with non-decreasing heights, that block included. */
  lemma TooManyFailuresPause(s: Inbound, b: Block, events: seq<InboundEvent>, rollbackGap: nat)
    requires s.failed > MAXFAILURES && b.ready && HeightsFrom(events, b.latest)
    requires ValidRun(OnBlock(s, b, rollbackGap), events, rollbackGap)
    ensures var t := After(OnBlock(s, b, rollbackGap), events, rollbackGap);
            && s.feeds <= t.feeds
            && forall i :: |s.feeds| <= i < |t.feeds| ==> t.feeds[i].latest >= PauseAfter(b.latest)
  {
    PauseMonotone(b.latest, b.latest);
    PauseIsKept(OnBlock(s, b, rollbackGap), events, rollbackGap, b.latest);
  }

  /** No batch is queued or running, and the flag says that one is. */
  predicate Stalled(s: Inbound) {
    !s.done && s.queued == 0 && s.running == 0
  }

  lemma {:induction false} StalledForever(s: Inbound, events: seq<InboundEvent>, rollbackGap: nat)
    requires Stalled(s) && ValidRun(s, events, rollbackGap)
    ensures Stalled(After(s, events, rollbackGap)) && After(s, events, rollbackGap).feeds == s.feeds
    decreases events
  {
    if events != [] {
      StalledForever(Apply(s, events[0], rollbackGap), events[1..], rollbackGap);
    }
  }

  /** An attempt whose queries do not both succeed, on a node that signs. */
  predicate FailsToFeed(s: Inbound, e: InboundEvent, rollbackGap: nat) {
    e.NewBlock? && Attempts(s, e.block, rollbackGap) && (e.block.signer != Some(true) || e.block.account.None?)
  }

  ghost predicate SomeFailedAttempt(s: Inbound, events: seq<InboundEvent>, rollbackGap: nat)
    requires ValidRun(s, events, rollbackGap)
    decreases events
  {
    events != [] &&
    (FailsToFeed(s, events[0], rollbackGap) || SomeFailedAttempt(Apply(s, events[0], rollbackGap), events[1..], rollbackGap))
  }

  /** The flag says exactly whether a batch is in flight, unless the loop is stalled. */
  ghost predicate FlagIsRight(s: Inbound) {
    Stalled(s) || (s.done <==> s.queued + s.running == 0)
  }

  lemma StepStallsIff(s: Inbound, e: InboundEvent, rollbackGap: nat)
    requires Inv(s, rollbackGap) && Possible(s, e) && FlagIsRight(s)
    ensures Stalled(Apply(s, e, rollbackGap)) <==> Stalled(s) || FailsToFeed(s, e, rollbackGap)
    ensures FlagIsRight(Apply(s, e, rollbackGap))
  {
    if e.NewBlock? {
      AttemptsIff(s, e.block, rollbackGap);
      BlockShape(s, e.block, rollbackGap);
    }
  }

  /** What one attempt does to the loop depends on the two queries of FeedTx alone. */
  lemma AttemptStallsIff(s: Inbound, b: Block, rollbackGap: nat)
    requires Inv(s, rollbackGap) && Attempts(s, b, rollbackGap)
    ensures Stalled(OnBlock(s, b, rollbackGap)) <==> b.signer != Some(true) || b.account.None?
  {
    AttemptsIff(s, b, rollbackGap);
    BlockShape(s, b, rollbackGap);
  }

  /** The flag is cleared after every attempt, also when a failed query left FeedTx without a batch.
      Over every run, the loop ends up with no batch in flight and the flag cleared, i.e. it never feeds
      again before a restart, exactly when such an attempt was made. */
  lemma {:induction false} StalledIff(s: Inbound, events: seq<InboundEvent>, rollbackGap: nat)
    requires Inv(s, rollbackGap) && FlagIsRight(s) && ValidRun(s, events, rollbackGap)
    ensures Stalled(After(s, events, rollbackGap)) <==> Stalled(s) || SomeFailedAttempt(s, events, rollbackGap)
    ensures FlagIsRight(After(s, events, rollbackGap))
    decreases events
  {
    if events != [] {
      StepKeepsInv(s, events[0], rollbackGap);
      StepStallsIff(s, events[0], rollbackGap);
      StalledIff(Apply(s, events[0], rollbackGap), events[1..], rollbackGap);
    }
  }

  /** It happens: from the start, a full group, and an account query that fails once. However the run
      goes on, nothing is fed again. */
  lemma OneFailedQueryStalls(height: nat, rollbackGap: nat) returns (b: Block)
    ensures b.ready && b.size == GROUPSIGN && !b.keygen && b.signer == Some(true) && b.account == None
    ensures Stalled(OnBlock(InitInbound(height), b, rollbackGap))
    ensures forall events :: ValidRun(OnBlock(InitInbound(height), b, rollbackGap), events, rollbackGap) ==>
      |After(OnBlock(InitInbound(height), b, rollbackGap), events, rollbackGap).feeds| == 1
  {
    var h := height + rollbackGap + INBOUNDGAP;
    b := Block(h, h, true, GROUPSIGN, false, Some(true), None);
    var s := OnBlock(InitInbound(height), b, rollbackGap);
    forall events | ValidRun(s, events, rollbackGap)
      ensures |After(s, events, rollbackGap).feeds| == 1
    {
      StalledForever(s, events, rollbackGap);
    }
  }

  /** The event loop's variables. */
  class InboundLoop {
    const rollbackGap: nat
    var failedInbound: nat
    var inboundPauseHeight: int
    var inBoundWait: bool
    var firstTimeInbound: bool
    var inBoundProcessDone: bool
    var previousTssBlockInbound: int
    var queued: nat
    var running: nat
    var feeds: seq<Feed>

    function View(): Inbound
      reads this
    {
      Inbound(failedInbound, inboundPauseHeight, inBoundWait, firstTimeInbound, inBoundProcessDone,
              previousTssBlockInbound, queued, running, feeds)
    }

    constructor (blockHeight: nat, rollbackGap: nat)
      ensures View() == InitInbound(blockHeight) && this.rollbackGap == rollbackGap
    {
      this.rollbackGap := rollbackGap;
      failedInbound, inboundPauseHeight, inBoundWait := 0, 0, false;
      firstTimeInbound, inBoundProcessDone, previousTssBlockInbound := true, true, blockHeight;
      queued, running, feeds := 0, 0, [];
    }

    method Book(b: Block, fed: bool)
      modifies this
      ensures feeds == old(feeds) && View() == old(View()).(done := false, previous := b.current, firstTime := true,
                                         queued := if fed then old(queued) + 1 else old(queued))
    {
      if fed {
        queued := queued + 1;
      }
      inBoundProcessDone := false;
      previousTssBlockInbound := b.current;
      firstTimeInbound := true;
    }

    static method FeedBatch(b: Block, queue: InboundQueue, address: string, pk: string)
      returns (batch: seq<InBoundReq>, ghost keys: seq<string>)
      requires queue.Valid() && b.size == |queue.items|
      modifies queue`items, queue.items.Values
      ensures queue.Valid() && (batch != [] <==> Fed(b))
      ensures batch == [] ==> queue.items == old(queue.items)
      ensures batch != [] ==>
        && IsBatch(old(queue.items).Keys, 4, keys) && Popped(old(queue.items), keys, batch, queue.items)
        && InOrder(batch, b.account.value.1)
    {
      var failed: bool;
      batch, failed, keys := queue.FeedTx(GROUPSIGN, b.signer, b.account, address, pk);
    }

    /** The call of FeedTx, and the bookkeeping that follows it whatever came of it. */
    method Attempt(b: Block, queue: InboundQueue, address: string, pk: string)
      returns (batch: seq<InBoundReq>, ghost keys: seq<string>)
      requires queue.Valid() && b.size == |queue.items|
      modifies this, queue`items, queue.items.Values
      ensures View() == Attempted(old(View()), b)
      ensures queue.Valid() && (batch != [] <==> Fed(b))
      ensures batch == [] ==> queue.items == old(queue.items)
      ensures batch != [] ==>
        && IsBatch(old(queue.items).Keys, 4, keys) && Popped(old(queue.items), keys, batch, queue.items)
        && InOrder(batch, b.account.value.1)
    {
      feeds := feeds + [Feed(b.current, b.latest)];
      batch, keys := FeedBatch(b, queue, address, pk);
      Book(b, batch != []);
    }

    method CheckPause(b: Block) returns (paused: bool)
      modifies this
      ensures paused <==> b.latest < Paused(old(View()), b).pause
      ensures View() == if paused then Paused(old(View()), b) else Paused(old(View()), b).(wait := false)
    {
      if failedInbound > 5 {
        failedInbound := 0;
        var mid := b.latest / ROUNDBLOCK + 1;
        inboundPauseHeight := mid * ROUNDBLOCK;
        inBoundWait := true;
      }
      if b.latest < inboundPauseHeight {
        return true;
      }
      inBoundWait := false;
      return false;
    }

    /** Everything that can stop a block from feeding before the call of FeedTx. */
    method Gate(b: Block) returns (open: bool)
      modifies this
      ensures open <==> Attempts(old(View()), b, rollbackGap)
      ensures OnBlock(old(View()), b, rollbackGap) == if open then Attempted(View(), b) else View()
      ensures queued == old(queued)
    {
      AttemptsIff(View(), b, rollbackGap);
      if !b.ready {
        return false;
      }
      var processableBlockHeight := 0;
      if b.current > rollbackGap {
        processableBlockHeight := b.current - rollbackGap;
      }
      var paused := CheckPause(b);
      if paused {
        return false;
      }
      if processableBlockHeight - previousTssBlockInbound >= 8 && b.size != 0 {
        if b.size < GROUPSIGN && firstTimeInbound {
          firstTimeInbound := false;
          return false;
        }
        if !inBoundProcessDone {
          return false;
        }
        if b.keygen {
          return false;
        }
        return true;
      }
      return false;
    }

    /** The throttle branch, with the call of FeedTx: a batch comes out exactly when all guards are open
        and both queries succeed, and it is the one of the smallest keys, with sequences from the queried
        one on. */
    method ProcessNewBlock(b: Block, queue: InboundQueue, address: string, pk: string)
      returns (batch: seq<InBoundReq>, ghost keys: seq<string>)
      requires queue.Valid() && b.size == |queue.items|
      modifies this, queue`items, queue.items.Values
      ensures View() == OnBlock(old(View()), b, rollbackGap) && queue.Valid()
      ensures queued == if batch == [] then old(queued) else old(queued) + 1
      ensures batch != [] <==> Attempts(old(View()), b, rollbackGap) && Fed(b)
      ensures batch == [] ==> queue.items == old(queue.items)
      ensures batch != [] ==>
        && IsBatch(old(queue.items).Keys, 4, keys) && Popped(old(queue.items), keys, batch, queue.items)
        && InOrder(batch, b.account.value.1)
    {
      batch, keys := [], [];
      var open := Gate(b);
      if open {
        batch, keys := Attempt(b, queue, address, pk);
      }
    }
  }

  /** The items carry consecutive account sequences from first on. */
  ghost predicate InOrder(batch: seq<InBoundReq>, first: uint64)
    reads batch
  {
    forall i :: 0 <= i < |batch| ==> batch[i].accSeq == SeqNo(first, i)
  }

  /** The items carry consecutive nonces of the pool from first on. */
  ghost predicate OutInOrder(batch: seq<OutBoundReq>, first: uint64, pool: string)
    reads batch
  {
    forall i :: 0 <= i < |batch| ==> batch[i].nonce == SeqNo(first, i) && batch[i].fromPoolAddr == pool
  }

  // ----- outbound -----

  datatype Chain = BSC | ETH

  /** A fed batch: its chain, the processable height, and the height of that chain at the time. */
  datatype OutFeed = OutFeed(chain: Chain, processable: int, latest: int)

  datatype Outbound = Outbound(
    failed: nat,                  // failedOutbound, one counter for both chains
    pauseBSC: int, pauseETH: int,
    wait: bool,
    firstTime: bool,
    done: bool,                   // outBoundProcessDone, one flag for both chains
    previousBSC: int, previousETH: int,
    queued: nat,
    running: nat,
    feeds: seq<OutFeed>)

  /** A new block of a public chain. ready: all queries succeeded, the node is a signer and no funds
      were moved; size: the retry map, ofChain: its items of that chain; poolAddress and nonce: the
      answers FeedTx gets, None for a failure. */
  datatype Head = Head(chain: Chain, number: nat, latest: nat, ready: bool, size: nat, ofChain: nat, keygen: bool,
                       poolAddress: Option<string>, nonce: Option<uint64>)

  function ChainName(c: Chain): string {
    if c.BSC? then "BSC" else "ETH"
  }

  /** The pop finds items of the chain, and FeedTx gives them nonces. */
  predicate OutReady(b: Head) {
    b.ofChain > 0 && b.poolAddress.Some? && b.nonce.Some?
  }

  datatype OutEvent = NewHead(head: Head) | TakeOut | OutFailed | OutSucceeded | OutDone

  function PauseOf(s: Outbound, c: Chain): int {
    if c.BSC? then s.pauseBSC else s.pauseETH
  }

  function PreviousOf(s: Outbound, c: Chain): int {
    if c.BSC? then s.previousBSC else s.previousETH
  }

  function SetPause(s: Outbound, c: Chain, h: int): Outbound {
    if c.BSC? then s.(pauseBSC := h) else s.(pauseETH := h)
  }

  function SetPrevious(s: Outbound, c: Chain, h: int): Outbound {
    if c.BSC? then s.(previousBSC := h) else s.(previousETH := h)
  }

  function InitOutbound(height: nat): Outbound {
    Outbound(0, 0, 0, false, true, true, height, height, 0, 0, [])
  }

  function OutPaused(s: Outbound, b: Head): Outbound {
    if s.failed > MAXFAILURES then SetPause(s, b.chain, PauseAfter(b.latest)).(failed := 0, wait := true) else s
  }

  /** The bookkeeping of a fed batch. */
  function OutFed(s: Outbound, c: Chain, processable: int, latest: int): Outbound {
    SetPrevious(s, c, processable).(firstTime := true, queued := s.queued + 1, done := false,
                                    feeds := s.feeds + [OutFeed(c, processable, latest)])
  }

  /** The throttle part of pubchainProcess. */
  function OnHead(s: Outbound, b: Head, rollbackGap: nat): Outbound {
    if !b.ready then s
    else
      var p := OutPaused(s, b);
      if b.latest < PauseOf(p, b.chain) then p
      else
        var q := p.(wait := false);
        var processable := b.number - rollbackGap;
        if !q.done || b.keygen then q
        else if processable - PreviousOf(q, b.chain) < OUTBOUNDGAP || b.size == 0 then q
        else if b.size < GROUPSIGN && q.firstTime then q.(firstTime := false)
        else if !OutReady(b) then q
        else OutFed(q, b.chain, processable, b.latest)
  }

  predicate OutPossible(s: Outbound, e: OutEvent) {
    match e
    case NewHead(_) => true
    case TakeOut => s.queued > 0
    case _ => s.running > 0
  }

  function OutApply(s: Outbound, e: OutEvent, rollbackGap: nat): Outbound
    requires OutPossible(s, e)
  {
    match e
    case NewHead(b) => OnHead(s, b, rollbackGap)
    case TakeOut => s.(queued := s.queued - 1, running := s.running + 1)
    case OutFailed => if s.wait then s else s.(failed := s.failed + 1)
    case OutSucceeded => s.(failed := 0)
    case OutDone => s.(running := s.running - 1, done := true)
  }

  ghost predicate OutRun(s: Outbound, events: seq<OutEvent>, rollbackGap: nat)
    decreases events
  {
    events == [] || (OutPossible(s, events[0]) && OutRun(OutApply(s, events[0], rollbackGap), events[1..], rollbackGap))
  }

  ghost function OutAfter(s: Outbound, events: seq<OutEvent>, rollbackGap: nat): Outbound
    requires OutRun(s, events, rollbackGap)
    decreases events
  {
    if events == [] then s else OutAfter(OutApply(s, events[0], rollbackGap), events[1..], rollbackGap)
  }

  /** All guards but the size of the group. */
  predicate OutOpen(s: Outbound, b: Head, rollbackGap: nat) {
    && b.ready && s.failed <= 5 && b.latest >= PauseOf(s, b.chain) && s.done && !b.keygen
    && b.number - rollbackGap - PreviousOf(s, b.chain) >= 4 && b.size > 0
  }

  /** The guards of a pop. */
  predicate OutAttempts(s: Outbound, b: Head, rollbackGap: nat) {
    OutOpen(s, b, rollbackGap) && (b.size >= 4 || !s.firstTime)
  }

  /** A head feeds a batch exactly when the guards let it pop, the chain has items, and their nonces and
      pool address are found. */
  lemma OutAttemptsIff(s: Outbound, b: Head, rollbackGap: nat)
    ensures OutAttempts(s, b, rollbackGap) && OutReady(b)
            <==> OnHead(s, b, rollbackGap).feeds == s.feeds + [OutFeed(b.chain, b.number - rollbackGap, b.latest)]
    ensures !(OutAttempts(s, b, rollbackGap) && OutReady(b)) <==> OnHead(s, b, rollbackGap).feeds == s.feeds
  {
    PauseMonotone(b.latest, b.latest);
    assert |s.feeds + [OutFeed(b.chain, b.number - rollbackGap, b.latest)]| != |s.feeds|;
  }

  /** A head of one chain never touches the pause or the last batch of the other, and what a fed batch
      leaves behind for its own. */
  lemma ChainsApart(s: Outbound, b: Head, rollbackGap: nat, c: Chain)
    ensures var t := OnHead(s, b, rollbackGap);
            && (c != b.chain ==> PauseOf(t, c) == PauseOf(s, c) && PreviousOf(t, c) == PreviousOf(s, c))
            && (if OutAttempts(s, b, rollbackGap) && OutReady(b)
                then PreviousOf(t, b.chain) == b.number - rollbackGap && t.firstTime && !t.done && t.queued == s.queued + 1
                else PreviousOf(t, b.chain) == PreviousOf(s, b.chain) && t.done == s.done && t.queued == s.queued)
  {
    PauseMonotone(b.latest, b.latest);
  }

  /** A small group waits for a second look, and the second look, on either chain, feeds it. */
  lemma OutSecondLook(s: Outbound, b: Head, next: Head, rollbackGap: nat)
    requires OutOpen(s, b, rollbackGap) && OutOpen(s, next, rollbackGap) && s.firstTime && OutReady(next)
    ensures b.size < 4 ==>
      var t := OnHead(s, b, rollbackGap);
      && t.feeds == s.feeds
      && OnHead(t, next, rollbackGap).feeds == s.feeds + [OutFeed(next.chain, next.number - rollbackGap, next.latest)]
    ensures b.size >= 4 && OutReady(b) ==>
      OnHead(s, b, rollbackGap).feeds == s.feeds + [OutFeed(b.chain, b.number - rollbackGap, b.latest)]
  {
  }

  function OutFailures(k: nat): seq<OutEvent> {
    seq(k, _ => OutFailed)
  }

  lemma {:induction false} OutFailuresCount(s: Outbound, k: nat, rollbackGap: nat)
    requires s.running > 0
    ensures OutRun(s, OutFailures(k), rollbackGap)
    ensures OutAfter(s, OutFailures(k), rollbackGap) == s.(failed := if s.wait then s.failed else s.failed + k)
    ensures OutApply(s, OutSucceeded, rollbackGap) == s.(failed := 0)
    decreases k
  {
    if k > 0 {
      assert OutFailures(k)[0] == OutFailed && OutFailures(k)[1..] == OutFailures(k - 1);
      OutFailuresCount(OutApply(s, OutFailed, rollbackGap), k - 1, rollbackGap);
    }
  }

  lemma OutPauseProtocol(s: Outbound, b: Head, rollbackGap: nat)
    requires b.ready
    ensures var t := OnHead(s, b, rollbackGap);
            if s.failed > MAXFAILURES
            then t.failed == 0 && t.wait && PauseOf(t, b.chain) == PauseAfter(b.latest) && t.feeds == s.feeds
            else t.failed == s.failed && PauseOf(t, b.chain) == PauseOf(s, b.chain)
                 && t.wait == (s.wait && b.latest < PauseOf(s, b.chain))
  {
    PauseMonotone(b.latest, b.latest);
  }

  /** Batches of the same chain are fed at processable heights at least 4 blocks apart. */
  ghost predicate OutInv(s: Outbound) {
    && s.queued + s.running <= 1
    && (s.done <==> s.queued + s.running == 0)
    && (forall i, j :: 0 <= i < j < |s.feeds| && s.feeds[i].chain == s.feeds[j].chain ==>
          s.feeds[j].processable - s.feeds[i].processable >= 4)
    && (forall i :: 0 <= i < |s.feeds| ==> s.feeds[i].processable <= PreviousOf(s, s.feeds[i].chain))
  }

  /** Over every run, and over both chains together, at most one outbound batch is in flight, and the
      flag says so exactly: unlike inbound, a failed feed never stalls. */
  lemma {:induction false} OutboundThrottled(s: Outbound, events: seq<OutEvent>, rollbackGap: nat)
    requires OutInv(s) && OutRun(s, events, rollbackGap)
    ensures OutInv(OutAfter(s, events, rollbackGap))
    decreases events
  {
    if events != [] {
      OutStepKeepsInv(s, events[0], rollbackGap);
      OutboundThrottled(OutApply(s, events[0], rollbackGap), events[1..], rollbackGap);
    }
  }

  lemma InitKeepsOutInv(height: nat)
    ensures OutInv(InitOutbound(height))
  {
  }

  lemma OutFedKeepsInv(s: Outbound, c: Chain, processable: int, latest: int)
    requires OutInv(s) && s.done && processable - PreviousOf(s, c) >= OUTBOUNDGAP
    ensures OutInv(OutFed(s, c, processable, latest))
  {
    var t := OutFed(s, c, processable, latest);
    assert t.feeds == s.feeds + [OutFeed(c, processable, latest)];
    assert forall d :: d != c ==> PreviousOf(t, d) == PreviousOf(s, d);
  }

  lemma SameFeedsKeepInv(s: Outbound, t: Outbound)
    requires OutInv(s) && t.feeds == s.feeds && t.previousBSC == s.previousBSC && t.previousETH == s.previousETH
    requires t.queued + t.running <= 1 && (t.done <==> t.queued + t.running == 0)
    ensures OutInv(t)
  {
    assert forall c :: PreviousOf(t, c) == PreviousOf(s, c);
  }

  /** A block either feeds a batch or leaves everything but the pause variables alone. */
  lemma HeadShape(s: Outbound, b: Head, rollbackGap: nat)
    ensures var t := OnHead(s, b, rollbackGap);
            var q := OutPaused(s, b).(wait := false);
            || (t.feeds == s.feeds && t.previousBSC == s.previousBSC && t.previousETH == s.previousETH
                && t.queued == s.queued && t.running == s.running && t.done == s.done)
            || (t == OutFed(q, b.chain, b.number - rollbackGap, b.latest)
                && s.done && b.number - rollbackGap - PreviousOf(s, b.chain) >= OUTBOUNDGAP)
  {
  }

  lemma OutStepKeepsInv(s: Outbound, e: OutEvent, rollbackGap: nat)
    requires OutInv(s) && OutPossible(s, e)
    ensures OutInv(OutApply(s, e, rollbackGap))
  {
    var t := OutApply(s, e, rollbackGap);
    if !e.NewHead? {
      SameFeedsKeepInv(s, t);
    } else {
      HeadShape(s, e.head, rollbackGap);
      if t.feeds == s.feeds && t.previousBSC == s.previousBSC && t.previousETH == s.previousETH
         && t.queued == s.queued && t.running == s.running && t.done == s.done {
        SameFeedsKeepInv(s, t);
      } else {
        var q := OutPaused(s, e.head).(wait := false);
        SameFeedsKeepInv(s, q);
        OutFedKeepsInv(q, e.head.chain, e.head.number - rollbackGap, e.head.latest);
      }
    }
  }

  ghost predicate OutHeightsFrom(events: seq<OutEvent>, c: Chain, h: nat) {
    forall e :: e in events && e.NewHead? && e.head.chain == c ==> e.head.latest >= h
  }

  lemma OutPauseStep(s: Outbound, e: OutEvent, rollbackGap: nat, c: Chain, h: nat)
    requires OutPossible(s, e) && PauseOf(s, c) >= PauseAfter(h)
    requires e.NewHead? && e.head.chain == c ==> e.head.latest >= h
    ensures var t := OutApply(s, e, rollbackGap);
            && PauseOf(t, c) >= PauseAfter(h) && s.feeds <= t.feeds
            && forall i :: |s.feeds| <= i < |t.feeds| && t.feeds[i].chain == c ==> t.feeds[i].latest >= PauseAfter(h)
  {
    if e.NewHead? {
      PauseMonotone(h, e.head.latest);
    }
  }

  /** A pause of one chain holds for that chain in any continuation with non-decreasing heights. */
  lemma {:induction false} OutboundPauseIsKept(s: Outbound, events: seq<OutEvent>, rollbackGap: nat, c: Chain, h: nat)
    requires OutRun(s, events, rollbackGap) && OutHeightsFrom(events, c, h) && PauseOf(s, c) >= PauseAfter(h)
    ensures var t := OutAfter(s, events, rollbackGap);
            && s.feeds <= t.feeds
            && forall i :: |s.feeds| <= i < |t.feeds| && t.feeds[i].chain == c ==> t.feeds[i].latest >= PauseAfter(h)
    decreases events
  {
    if events != [] {
      var t := OutApply(s, events[0], rollbackGap);
      assert events[0] in events && forall e :: e in events[1..] ==> e in events;
      OutPauseStep(s, events[0], rollbackGap, c, h);
      OutboundPauseIsKept(t, events[1..], rollbackGap, c, h);
    }
  }

  lemma OutboundFailuresPause(s: Outbound, b: Head, events: seq<OutEvent>, rollbackGap: nat)
    requires s.failed > MAXFAILURES && b.ready && OutHeightsFrom(events, b.chain, b.latest)
    requires OutRun(OnHead(s, b, rollbackGap), events, rollbackGap)
    ensures var t := OutAfter(OnHead(s, b, rollbackGap), events, rollbackGap);
            && s.feeds <= t.feeds
            && forall i :: |s.feeds| <= i < |t.feeds| && t.feeds[i].chain == b.chain ==> t.feeds[i].latest >= PauseAfter(b.latest)
  {
    PauseMonotone(b.latest, b.latest);
    OutboundPauseIsKept(OnHead(s, b, rollbackGap), events, rollbackGap, b.chain, b.latest);
  }

  class OutboundLoop {
    const rollbackGap: nat
    var failedOutbound: nat
    var pauseBSC: int
    var pauseETH: int
    var outBoundWait: bool
    var firstTimeOutbound: bool
    var outBoundProcessDone: bool
    var previousBSC: int
    var previousETH: int
    var queued: nat
    var running: nat
    var feeds: seq<OutFeed>

    function View(): Outbound
      reads this
    {
      Outbound(failedOutbound, pauseBSC, pauseETH, outBoundWait, firstTimeOutbound, outBoundProcessDone,
               previousBSC, previousETH, queued, running, feeds)
    }

    constructor (blockHeight: nat, rollbackGap: nat)
      ensures View() == InitOutbound(blockHeight) && this.rollbackGap == rollbackGap
    {
      this.rollbackGap := rollbackGap;
      failedOutbound, pauseBSC, pauseETH, outBoundWait := 0, 0, 0, false;
      firstTimeOutbound, outBoundProcessDone, previousBSC, previousETH := true, true, blockHeight, blockHeight;
      queued, running, feeds := 0, 0, [];
    }

    /** PopItem, then FeedTx on what was popped. */
    static method PopAndFeed(b: Head, queue: OutboundQueue)
      returns (batch: seq<OutBoundReq>, failed: bool, ghost keys: seq<string>)
      requires queue.Valid() && b.ofChain == |queue.ChainKeys(ChainName(b.chain))|
      modifies queue`items, queue.items.Values
      ensures queue.Valid() && (batch != [] <==> b.ofChain > 0)
      ensures IsBatch(old(queue.ChainKeys(ChainName(b.chain))), 4, keys)
      ensures Popped(old(queue.items), keys, batch, queue.items)
      ensures batch != [] ==> (failed <==> b.poolAddress.None? || b.nonce.None?)
      ensures batch != [] && !failed ==> OutInOrder(batch, b.nonce.value, b.poolAddress.value)
    {
      batch, keys := queue.PopItem(GROUPSIGN, ChainName(b.chain));
      failed := false;
      if batch == [] {
        return;
      }
      assert NoDup(batch);
      failed := FeedOutbound(batch, b.poolAddress, b.nonce);
    }

    method BookFeed(b: Head, processableBlockHeight: int)
      modifies this
      ensures View() == OutFed(old(View()), b.chain, processableBlockHeight, b.latest)
    {
      match b.chain {
        case BSC => previousBSC := processableBlockHeight;
        case ETH => previousETH := processableBlockHeight;
      }
      firstTimeOutbound := true;
      feeds := feeds + [OutFeed(b.chain, processableBlockHeight, b.latest)];
      queued := queued + 1;
      outBoundProcessDone := false;
    }

    method CheckPause(b: Head) returns (paused: bool)
      modifies this
      ensures paused <==> b.latest < PauseOf(OutPaused(old(View()), b), b.chain)
      ensures View() == if paused then OutPaused(old(View()), b) else OutPaused(old(View()), b).(wait := false)
    {
      if failedOutbound > 5 {
        var mid := b.latest / ROUNDBLOCK + 1;
        match b.chain {
          case BSC => pauseBSC := mid * ROUNDBLOCK;
          case ETH => pauseETH := mid * ROUNDBLOCK;
        }
        failedOutbound := 0;
        outBoundWait := true;
      }
      if b.latest < (if b.chain == BSC then pauseBSC else pauseETH) {
        return true;
      }
      outBoundWait := false;
      return false;
    }

    /** A batch whose FeedTx failed has left the map and goes nowhere. */
    method Attempt(b: Head, queue: OutboundQueue, processableBlockHeight: int)
      returns (batch: seq<OutBoundReq>, fed: bool, ghost keys: seq<string>)
      requires queue.Valid() && b.ofChain == |queue.ChainKeys(ChainName(b.chain))|
      modifies this, queue`items, queue.items.Values
      ensures View() == if OutReady(b) then OutFed(old(View()), b.chain, processableBlockHeight, b.latest) else old(View())
      ensures queue.Valid() && (batch != [] <==> b.ofChain > 0) && (fed <==> OutReady(b))
      ensures IsBatch(old(queue.ChainKeys(ChainName(b.chain))), 4, keys)
      ensures Popped(old(queue.items), keys, batch, queue.items)
      ensures fed ==> OutInOrder(batch, b.nonce.value, b.poolAddress.value)
    {
      var failed: bool;
      batch, failed, keys := PopAndFeed(b, queue);
      fed := batch != [] && !failed;
      if fed {
        BookFeed(b, processableBlockHeight);
      }
    }

    /** Everything that can stop a block from feeding before the pop. */
    method Gate(b: Head, processableBlockHeight: int) returns (open: bool)
      requires processableBlockHeight == b.number - rollbackGap
      modifies this
      ensures open <==> OutAttempts(old(View()), b, rollbackGap)
      ensures OnHead(old(View()), b, rollbackGap)
              == if open && OutReady(b) then OutFed(View(), b.chain, processableBlockHeight, b.latest) else View()
      ensures queued == old(queued)
    {
      if !b.ready {
        return false;
      }
      var paused := CheckPause(b);
      if paused {
        return false;
      }
      if !outBoundProcessDone {
        return false;
      }
      if b.keygen {
        return false;
      }
      if processableBlockHeight - (if b.chain == BSC then previousBSC else previousETH) >= 4 && b.size != 0 {
        if b.size < GROUPSIGN && firstTimeOutbound {
          firstTimeOutbound := false;
          return false;
        }
        return true;
      }
      return false;
    }

    /** The throttle branch: the smallest keys of the chain are popped exactly when all guards are open
        and there are any, and fed exactly when the pool address and the nonce are found. */
    method PubchainProcess(b: Head, queue: OutboundQueue)
      returns (batch: seq<OutBoundReq>, fed: bool, ghost keys: seq<string>)
      requires queue.Valid() && b.size == |queue.items| && b.ofChain == |queue.ChainKeys(ChainName(b.chain))|
      modifies this, queue`items, queue.items.Values
      ensures View() == OnHead(old(View()), b, rollbackGap) && queue.Valid()
      ensures queued == if fed then old(queued) + 1 else old(queued)
      ensures batch != [] <==> OutAttempts(old(View()), b, rollbackGap) && b.ofChain > 0
      ensures fed <==> OutAttempts(old(View()), b, rollbackGap) && OutReady(b)
      ensures batch == [] ==> queue.items == old(queue.items)
      ensures batch != [] ==>
        && IsBatch(old(queue.ChainKeys(ChainName(b.chain))), 4, keys) && Popped(old(queue.items), keys, batch, queue.items)
      ensures fed ==> OutInOrder(batch, b.nonce.value, b.poolAddress.value)
    {
      batch, fed, keys := [], false, [];
      var processableBlockHeight := b.number - rollbackGap;
      var open := Gate(b, processableBlockHeight);
      if open {
        batch, fed, keys := Attempt(b, queue, processableBlockHeight);
        if batch == [] {
          EmptyPop(old(queue.items), keys, batch, queue.items);
        }
      }
    }

    lemma EmptyPop<T>(items: map<string, T>, keys: seq<string>, batch: seq<T>, left: map<string, T>)
      requires Popped(items, keys, batch, left) && batch == []
      ensures left == items
    {
    }
  }
}
