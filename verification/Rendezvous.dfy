/** The batch signing rendezvous of bridge/bridge_service.go (processEachOutBound) and
    pubchain/move_fund.go (MoveFound): n workers, one collector and the goroutine that waits for all
    of them, interleaved step by step over one channel of capacity n. */
module Rendezvous {
  import opened Common
  import opened Broadcasting

  /** TssReq: the index of a worker and the bytes it posts. */
  datatype Msg = Msg(index: nat, data: string)

  /** The progress of one worker. */
  datatype Pc =
    | Starting
    | Computing                    // subscribed, not yet at the signer
    | Awaiting                     // hash posted, blocked on its own channel
    | Resumed(reply: Reply)        // reply taken
    | Posted(sent: bool)           // "done" posted; sent: it holds the hash of a signed transaction
    | Cleared                      // confirmed on the chain, waiting for the submit lock
    | Submitting                   // holding the submit lock
    | Recorded                     // settled or put on hold
    | Finished                     // unsubscribed

  datatype Collector =
    | Gathering(received: map<nat, string>)
    | Signing(received: map<nat, string>)
    | Replying(reply: Reply)
    | Stopped

  datatype State = State(
    hashes: seq<string>,           // the message worker i wants signed
    pcs: seq<Pc>,
    chan: seq<Msg>,                // tssReqChan
    clients: Clients,
    collector: Collector,
    lock: Option<nat>,             // localSubmitLocker
    confirmed: seq<nat>,
    held: seq<nat>,
    closed: bool,                  // tssReqChan has been closed
    panicked: bool)                // double subscription, or a send on the closed channel

  datatype Event =
    | Subscribe(i: nat)
    | PostHash(i: nat)             // the signer closure posts the hash
    | GiveUp(i: nat)               // failed before the signer: "done" is the first message
    | Wake(i: nat)                 // the signer closure receives its reply
    | PostDone(i: nat, ok: bool)   // the sending function returned
    | Hold(i: nat)                 // not confirmed: on-hold queue
    | Confirm(i: nat)              // CheckTxStatus succeeded
    | Lock(i: nat)                 // submit lock taken
    | Release(i: nat)              // submit lock released
    | Unsubscribe(i: nat)
    | Collect
    | Sign(reply: Reply)
    | Broadcast
    | Close

  const DONE := "done"

  function Init(hashes: seq<string>): State {
    State(hashes, seq(|hashes|, _ => Starting), [], map[], Gathering(map[]), None, [], [], false, false)
  }

  /** A send can proceed when there is room, and on a closed channel it panics at once. */
  predicate CanSend(s: State) {
    s.closed || |s.chan| < |s.hashes|
  }

  predicate HasSignature(s: State, i: nat)
    requires i < |s.pcs| && i < |s.hashes|
  {
    s.pcs[i].Resumed? && s.pcs[i].reply.Some? && s.hashes[i] in s.pcs[i].reply.value
  }

  predicate Enabled(s: State, e: Event)
    requires |s.pcs| == |s.hashes|
  {
    var n := |s.pcs|;
    match e
    case Subscribe(i) => i < n && s.pcs[i].Starting?
    case PostHash(i) => i < n && s.pcs[i].Computing? && CanSend(s)
    case GiveUp(i) => i < n && s.pcs[i].Computing? && CanSend(s)
    case Wake(i) => i < n && s.pcs[i].Awaiting? && i in s.clients && s.clients[i] != []
    case PostDone(i, ok) => i < n && s.pcs[i].Resumed? && CanSend(s) && (ok ==> HasSignature(s, i))
    case Hold(i) => i < n && s.pcs[i].Posted?
    case Confirm(i) => i < n && s.pcs[i] == Posted(true)
    case Lock(i) => i < n && s.pcs[i].Cleared? && s.lock == None
    case Release(i) => i < n && s.pcs[i].Submitting? && s.lock == Some(i)
    case Unsubscribe(i) => i < n && s.pcs[i].Recorded?
    case Collect => s.collector.Gathering? && s.chan != []
    case Sign(_) => s.collector.Signing?
    case Broadcast => s.collector.Replying?
    case Close => !s.closed && s.collector.Stopped? && forall i :: 0 <= i < n ==> s.pcs[i].Finished?
  }

  function Send(s: State, i: nat, data: string, pc: Pc): State
    requires i < |s.pcs|
  {
    if s.closed then s.(panicked := true)
    else s.(chan := s.chan + [Msg(i, data)], pcs := s.pcs[i := pc])
  }

  function Apply(s: State, e: Event): State
    requires |s.pcs| == |s.hashes| && Enabled(s, e)
  {
    match e
    case Subscribe(i) =>
      if i in s.clients then s.(panicked := true)
      else s.(clients := Subscribed(s.clients, i), pcs := s.pcs[i := Computing])
    case PostHash(i) => Send(s, i, s.hashes[i], Awaiting)
    case GiveUp(i) => Send(s, i, DONE, Posted(false))
    case Wake(i) => s.(clients := s.clients[i := s.clients[i][1..]], pcs := s.pcs[i := Resumed(s.clients[i][0])])
    case PostDone(i, ok) => Send(s, i, DONE, Posted(ok))
    case Hold(i) => s.(held := s.held + [i], pcs := s.pcs[i := Recorded])
    case Confirm(i) => s.(confirmed := s.confirmed + [i], pcs := s.pcs[i := Cleared])
    case Lock(i) => s.(lock := Some(i), pcs := s.pcs[i := Submitting])
    case Release(i) => s.(lock := None, pcs := s.pcs[i := Recorded])
    case Unsubscribe(i) => s.(clients := Unsubscribed(s.clients, i), pcs := s.pcs[i := Finished])
    case Collect =>
      var received := s.collector.received[s.chan[0].index := s.chan[0].data];
      s.(chan := s.chan[1..],
         collector := if |received| >= |s.pcs| then Signing(received) else Gathering(received))
    case Sign(reply) => s.(collector := Replying(reply))
    case Broadcast => s.(collector := Stopped, clients := Delivered(s.clients, s.collector.reply))
    case Close => s.(closed := true)
  }

  /** The function that started the round has returned. */
  predicate Final(s: State) {
    && s.closed && s.collector.Stopped? && s.lock == None
    && forall i :: 0 <= i < |s.pcs| ==> s.pcs[i].Finished?
  }

  // ----- the invariant -----

  /** Worker i has put its first message on the channel. */
  predicate HasPosted(pc: Pc) {
    !pc.Starting? && !pc.Computing?
  }

  /** Worker i has put its last message on the channel. */
  predicate IsDone(pc: Pc) {
    pc.Posted? || IsSettled(pc)
  }

  predicate IsSettled(pc: Pc) {
    pc.Cleared? || pc.Submitting? || pc.Recorded? || pc.Finished?
  }

  function ChanSet(chan: seq<Msg>): set<nat> {
    set m | m in chan :: m.index
  }

  /** The bytes of a first message: the hash of a worker that waits, "done" of one that gave up. */
  predicate FirstMessage(pcs: seq<Pc>, hashes: seq<string>, i: nat, data: string) {
    i < |pcs| && i < |hashes| && data == if pcs[i].Awaiting? then hashes[i] else DONE
  }

  ghost predicate ChanInv(pcs: seq<Pc>, chan: seq<Msg>) {
    && (forall j, k :: 0 <= j < k < |chan| ==> chan[j].index != chan[k].index)
    && (forall m :: m in chan ==> m.index < |pcs|)
  }

  ghost predicate ClientsInv(pcs: seq<Pc>, clients: Clients) {
    && (forall i :: i in clients ==> i < |pcs| && |clients[i]| <= 1)
    && (forall i :: 0 <= i < |pcs| ==> (i in clients <==> !pcs[i].Starting? && !pcs[i].Finished?))
  }

  /** Every worker is booked at most once, and exactly when it is through. */
  ghost predicate BooksInv(pcs: seq<Pc>, confirmed: seq<nat>, held: seq<nat>) {
    && NoDup(confirmed) && NoDup(held)
    && (forall i: nat :: i in confirmed ==> i !in held)
    && (forall i: nat :: i in confirmed || i in held <==> i < |pcs| && IsSettled(pcs[i]))
  }

  ghost predicate LockInv(pcs: seq<Pc>, lock: Option<nat>) {
    && (forall i :: 0 <= i < |pcs| ==> (pcs[i].Submitting? <==> lock == Some(i)))
    && (lock.Some? ==> lock.value < |pcs|)
  }

  /** Until the broadcast nobody has a reply. */
  ghost predicate NoReplies(pcs: seq<Pc>, clients: Clients) {
    && (forall i :: 0 <= i < |pcs| ==> !pcs[i].Resumed?)
    && (forall i :: i in clients ==> clients[i] == [])
  }

  /** Until the broadcast every message is a first message, still in the channel or received. */
  ghost predicate Owners(pcs: seq<Pc>, chan: seq<Msg>, received: set<nat>) {
    && (forall i :: i in received ==> i < |pcs| && i !in ChanSet(chan))
    && (forall i :: 0 <= i < |pcs| ==> (HasPosted(pcs[i]) <==> i in received || i in ChanSet(chan)))
  }

  ghost predicate Bytes(pcs: seq<Pc>, hashes: seq<string>, chan: seq<Msg>, received: map<nat, string>) {
    && (forall i :: i in received ==> FirstMessage(pcs, hashes, i, received[i]))
    && (forall m :: m in chan ==> FirstMessage(pcs, hashes, m.index, m.data))
  }

  /** From the end of the gathering on, only last messages are on the channel. */
  ghost predicate LateInv(pcs: seq<Pc>, chan: seq<Msg>) {
    && (forall i :: 0 <= i < |pcs| ==> HasPosted(pcs[i]))
    && (forall m :: m in chan ==> m.index < |pcs| && IsDone(pcs[m.index]))
  }

  ghost predicate Delivery(pcs: seq<Pc>, clients: Clients) {
    forall i :: 0 <= i < |pcs| && pcs[i].Awaiting? ==> i in clients && clients[i] != []
  }

  ghost predicate CollectorInv(s: State) {
    match s.collector
    case Gathering(received) =>
      && NoReplies(s.pcs, s.clients) && Owners(s.pcs, s.chan, received.Keys)
      && Bytes(s.pcs, s.hashes, s.chan, received) && |received| < |s.pcs|
    case Signing(received) =>
      && NoReplies(s.pcs, s.clients) && LateInv(s.pcs, s.chan) && s.chan == []
      && received.Keys == Below(|s.pcs|) && Bytes(s.pcs, s.hashes, [], received)
    case Replying(_) =>
      NoReplies(s.pcs, s.clients) && LateInv(s.pcs, s.chan) && s.chan == []
    case Stopped => LateInv(s.pcs, s.chan) && Delivery(s.pcs, s.clients)
  }

  ghost predicate Inv(s: State) {
    && |s.pcs| == |s.hashes| > 0
    && !s.panicked
    && ChanInv(s.pcs, s.chan) && ClientsInv(s.pcs, s.clients)
    && BooksInv(s.pcs, s.confirmed, s.held) && LockInv(s.pcs, s.lock)
    && CollectorInv(s)
    && (s.closed ==> Final(s))
  }

  lemma InitInv(hashes: seq<string>)
    requires hashes != []
    ensures Inv(Init(hashes))
  {
  }

  // ----- counting -----

  lemma ChanSetAppend(chan: seq<Msg>, m: Msg)
    ensures ChanSet(chan + [m]) == ChanSet(chan) + {m.index}
  {
  }

  lemma ChanSetTail(chan: seq<Msg>)
    requires chan != [] && forall j, k :: 0 <= j < k < |chan| ==> chan[j].index != chan[k].index
    ensures ChanSet(chan[1..]) == ChanSet(chan) - {chan[0].index}
    ensures forall m :: m in chan[1..] ==> m in chan && m.index != chan[0].index
  {
    assert chan == [chan[0]] + chan[1..];
    forall m | m in chan[1..]
      ensures m in chan && m.index != chan[0].index
    {
      var j :| 0 <= j < |chan[1..]| && chan[1..][j] == m;
      assert chan[j + 1] == m;
    }
  }

  lemma {:induction false} ChanSetCard(chan: seq<Msg>)
    requires forall j, k :: 0 <= j < k < |chan| ==> chan[j].index != chan[k].index
    ensures |ChanSet(chan)| == |chan|
  {
    if chan != [] {
      ChanSetTail(chan);
      ChanSetCard(chan[1..]);
      assert chan[0].index in ChanSet(chan);
    } else {
      assert ChanSet(chan) == {};
    }
  }

  lemma RoomFor(pcs: seq<Pc>, chan: seq<Msg>, i: nat)
    requires ChanInv(pcs, chan) && i < |pcs| && i !in ChanSet(chan)
    ensures |chan| < |pcs|
  {
    ChanSetCard(chan);
    BelowCard(|pcs|);
    assert ChanSet(chan) <= Below(|pcs|) - {i};
    SubsetCard(ChanSet(chan), Below(|pcs|) - {i});
  }

  lemma NotOnChannel(s: State, i: nat)
    requires Inv(s) && i < |s.pcs| && (s.pcs[i].Computing? || s.pcs[i].Resumed?)
    ensures i !in ChanSet(s.chan) && !s.closed
    ensures s.pcs[i].Computing? ==> s.collector.Gathering? && i !in s.collector.received
    ensures s.pcs[i].Resumed? ==> s.collector.Stopped?
  {
  }

  /** The capacity argument: a worker that is about to post, first or last message, has none on the
      channel, so at most n - 1 of the n places are taken. */
  lemma RoomToPost(s: State, i: nat)
    requires Inv(s) && i < |s.pcs| && (s.pcs[i].Computing? || s.pcs[i].Resumed?)
    ensures i !in ChanSet(s.chan) && |s.chan| < |s.pcs| && !s.closed
    ensures s.pcs[i].Computing? ==> s.collector.Gathering? && i !in s.collector.received
    ensures s.pcs[i].Resumed? ==> s.collector.Stopped?
  {
    NotOnChannel(s, i);
    RoomFor(s.pcs, s.chan, i);
  }

  // ----- every step keeps the invariant -----

  lemma PostKeepsChan(pcs: seq<Pc>, chan: seq<Msg>, i: nat, data: string, pc: Pc)
    requires ChanInv(pcs, chan) && i < |pcs| && i !in ChanSet(chan)
    ensures ChanInv(pcs[i := pc], chan + [Msg(i, data)])
  {
    assert forall j :: 0 <= j < |chan| ==> chan[j] in chan;
    assert forall m :: m in chan ==> m.index in ChanSet(chan);
  }

  lemma PostKeepsOwners(pcs: seq<Pc>, chan: seq<Msg>, received: set<nat>, i: nat, data: string, pc: Pc)
    requires i < |pcs| && i !in received && HasPosted(pc) && Owners(pcs, chan, received)
    ensures Owners(pcs[i := pc], chan + [Msg(i, data)], received)
  {
    ChanSetAppend(chan, Msg(i, data));
  }

  lemma PostKeepsBytes(pcs: seq<Pc>, hashes: seq<string>, chan: seq<Msg>, received: map<nat, string>, i: nat, data: string, pc: Pc)
    requires |pcs| == |hashes| && i < |pcs| && i !in received && i !in ChanSet(chan)
    requires (pc == Awaiting && data == hashes[i]) || (pc == Posted(false) && data == DONE)
    requires Bytes(pcs, hashes, chan, received)
    ensures Bytes(pcs[i := pc], hashes, chan + [Msg(i, data)], received)
  {
    assert forall m :: m in chan ==> m.index in ChanSet(chan);
  }

  lemma TakeKeepsChan(pcs: seq<Pc>, chan: seq<Msg>)
    requires ChanInv(pcs, chan) && chan != []
    ensures ChanInv(pcs, chan[1..])
  {
    ChanSetTail(chan);
  }

  lemma TakeKeepsOwners(pcs: seq<Pc>, chan: seq<Msg>, received: set<nat>)
    requires ChanInv(pcs, chan) && chan != [] && Owners(pcs, chan, received)
    ensures Owners(pcs, chan[1..], received + {chan[0].index})
  {
    ChanSetTail(chan);
    assert chan[0] in chan;
    assert chan[0].index in ChanSet(chan);
  }

  lemma TakeKeepsBytes(pcs: seq<Pc>, hashes: seq<string>, chan: seq<Msg>, received: map<nat, string>)
    requires chan != [] && Bytes(pcs, hashes, chan, received)
    ensures Bytes(pcs, hashes, chan[1..], received[chan[0].index := chan[0].data])
  {
    assert chan[0] in chan;
    assert forall m :: m in chan[1..] ==> m in chan;
  }

  lemma AllReceived(pcs: seq<Pc>, chan: seq<Msg>, received: set<nat>)
    requires ChanInv(pcs, chan) && Owners(pcs, chan, received)
    ensures |received| <= |pcs|
    ensures |received| == |pcs| ==> received == Below(|pcs|) && chan == [] && LateInv(pcs, chan)
  {
    BelowCard(|pcs|);
    assert received <= Below(|pcs|);
    SubsetCard(received, Below(|pcs|));
    assert forall m :: m in chan ==> m.index in ChanSet(chan);
    assert |chan| > 0 ==> chan[0] in chan && chan[0].index < |pcs|;
  }

  /** A step from was to pc that posts nothing and receives nothing. */
  predicate SilentMove(was: Pc, pc: Pc) {
    && !pc.Awaiting? && !pc.Resumed? && !was.Awaiting? && !was.Resumed?
    && HasPosted(pc) == HasPosted(was) && (IsDone(was) ==> IsDone(pc))
  }

  lemma MoveKeepsMessages(pcs: seq<Pc>, hashes: seq<string>, chan: seq<Msg>, received: map<nat, string>, i: nat, pc: Pc)
    requires i < |pcs| && SilentMove(pcs[i], pc)
    ensures Owners(pcs, chan, received.Keys) ==> Owners(pcs[i := pc], chan, received.Keys)
    ensures Bytes(pcs, hashes, chan, received) ==> Bytes(pcs[i := pc], hashes, chan, received)
  {
  }

  lemma MoveKeepsReplies(pcs: seq<Pc>, clients: Clients, clients': Clients, chan: seq<Msg>, i: nat, pc: Pc)
    requires i < |pcs| && SilentMove(pcs[i], pc)
    requires clients' == clients || clients' == Subscribed(clients, i) || clients' == Unsubscribed(clients, i)
    ensures NoReplies(pcs, clients) ==> NoReplies(pcs[i := pc], clients')
    ensures Delivery(pcs, clients) ==> Delivery(pcs[i := pc], clients')
    ensures LateInv(pcs, chan) ==> LateInv(pcs[i := pc], chan)
  {
  }

  lemma MoveKeepsCollector(s: State, e: Event)
    requires Inv(s) && Enabled(s, e)
    requires e.Subscribe? || e.Hold? || e.Confirm? || e.Lock? || e.Release? || e.Unsubscribe?
    ensures !Apply(s, e).panicked && CollectorInv(Apply(s, e))
  {
    var t := Apply(s, e);
    MoveKeepsReplies(s.pcs, s.clients, t.clients, s.chan, e.i, t.pcs[e.i]);
    if s.collector.Gathering? || s.collector.Signing? {
      MoveKeepsMessages(s.pcs, s.hashes, s.chan, s.collector.received, e.i, t.pcs[e.i]);
    }
  }

  lemma BookKeepsBooks(pcs: seq<Pc>, confirmed: seq<nat>, held: seq<nat>, i: nat, pc: Pc)
    requires i < |pcs| && BooksInv(pcs, confirmed, held)
    ensures IsSettled(pc) && !IsSettled(pcs[i]) ==>
      BooksInv(pcs[i := pc], confirmed + [i], held) && BooksInv(pcs[i := pc], confirmed, held + [i])
    ensures IsSettled(pc) == IsSettled(pcs[i]) ==> BooksInv(pcs[i := pc], confirmed, held)
  {
  }

  lemma WorkerKeepsInv(s: State, e: Event)
    requires Inv(s) && Enabled(s, e)
    requires e.Subscribe? || e.Hold? || e.Confirm? || e.Lock? || e.Release? || e.Unsubscribe?
    ensures Inv(Apply(s, e))
  {
    MoveKeepsCollector(s, e);
    BookKeepsBooks(s.pcs, s.confirmed, s.held, e.i, Apply(s, e).pcs[e.i]);
  }

  /** A first message moves its worker, and touches neither the clients nor the books. */
  lemma PostKeepsRest(pcs: seq<Pc>, clients: Clients, confirmed: seq<nat>, held: seq<nat>, lock: Option<nat>, i: nat, pc: Pc)
    requires i < |pcs| && pcs[i].Computing? && (pc.Awaiting? || pc.Posted?)
    requires ClientsInv(pcs, clients) && BooksInv(pcs, confirmed, held) && LockInv(pcs, lock) && NoReplies(pcs, clients)
    ensures ClientsInv(pcs[i := pc], clients) && BooksInv(pcs[i := pc], confirmed, held)
    ensures LockInv(pcs[i := pc], lock) && NoReplies(pcs[i := pc], clients)
  {
  }

  lemma PostKeepsInv(s: State, e: Event)
    requires Inv(s) && Enabled(s, e)
    requires e.PostHash? || e.GiveUp?
    ensures Inv(Apply(s, e))
  {
    var i := e.i;
    RoomToPost(s, i);
    PostKeepsRest(s.pcs, s.clients, s.confirmed, s.held, s.lock, i, Apply(s, e).pcs[i]);
    var data, pc := if e.PostHash? then s.hashes[i] else DONE, if e.PostHash? then Awaiting else Posted(false);
    PostKeepsChan(s.pcs, s.chan, i, data, pc);
    PostKeepsOwners(s.pcs, s.chan, s.collector.received.Keys, i, data, pc);
    PostKeepsBytes(s.pcs, s.hashes, s.chan, s.collector.received, i, data, pc);
  }

  lemma ReplyKeepsInv(s: State, e: Event)
    requires Inv(s) && Enabled(s, e)
    requires e.Wake? || e.PostDone?
    ensures Inv(Apply(s, e))
  {
    if e.PostDone? {
      RoomToPost(s, e.i);
      PostKeepsChan(s.pcs, s.chan, e.i, DONE, Posted(e.ok));
    } else {
      assert s.collector.Stopped?;
    }
  }

  lemma CollectKeepsInv(s: State)
    requires Inv(s) && Enabled(s, Collect)
    ensures Inv(Apply(s, Collect))
  {
    var received := s.collector.received;
    var m := s.chan[0];
    assert received[m.index := m.data].Keys == received.Keys + {m.index};
    TakeKeepsChan(s.pcs, s.chan);
    TakeKeepsOwners(s.pcs, s.chan, received.Keys);
    TakeKeepsBytes(s.pcs, s.hashes, s.chan, received);
    AllReceived(s.pcs, s.chan[1..], received[m.index := m.data].Keys);
  }

  lemma ReplyingKeepsInv(s: State, e: Event)
    requires Inv(s) && Enabled(s, e)
    requires e.Sign? || e.Broadcast? || e.Close?
    ensures Inv(Apply(s, e))
  {
  }

  lemma StepKeepsInv(s: State, e: Event)
    requires Inv(s) && Enabled(s, e)
    ensures Inv(Apply(s, e))
  {
    match e
    case PostHash(_) => PostKeepsInv(s, e);
    case GiveUp(_) => PostKeepsInv(s, e);
    case Wake(_) => ReplyKeepsInv(s, e);
    case PostDone(_, _) => ReplyKeepsInv(s, e);
    case Collect => CollectKeepsInv(s);
    case Sign(_) => ReplyingKeepsInv(s, e);
    case Broadcast => ReplyingKeepsInv(s, e);
    case Close => ReplyingKeepsInv(s, e);
    case _ => WorkerKeepsInv(s, e);
  }

  // ----- no deadlock, and no endless run -----

  /** A worker that is through computing is never blocked by the channel, and neither is one whose
      reply has arrived: deadlock freedom does not rest on anybody reading the channel again. */
  lemma SendsNeverBlock(s: State, i: nat)
    requires Inv(s) && i < |s.pcs|
    ensures s.pcs[i].Computing? ==> Enabled(s, PostHash(i)) && Enabled(s, GiveUp(i))
    ensures s.pcs[i].Resumed? ==> Enabled(s, PostDone(i, false)) && (HasSignature(s, i) ==> Enabled(s, PostDone(i, true)))
  {
    if s.pcs[i].Computing? || s.pcs[i].Resumed? {
      RoomToPost(s, i);
    }
  }

  /** At the broadcast every worker that waits is subscribed, with an empty channel, so it gets the
      reply; and the collector has taken one message of each of the n workers, no more. */
  lemma BroadcastReachesWaiters(s: State, i: nat)
    requires Inv(s) && Enabled(s, Broadcast) && i < |s.pcs| && s.pcs[i].Awaiting?
    ensures i in s.clients && s.clients[i] == [] && s.chan == []
    ensures var t := Apply(s, Broadcast); t.clients[i] == [s.collector.reply] && Enabled(t, Wake(i))
  {
  }

  /** The collector never hears twice from a worker, so it takes exactly n messages. */
  lemma CollectIsFresh(s: State)
    requires Inv(s) && Enabled(s, Collect)
    ensures s.chan[0].index !in s.collector.received
    ensures var t := Apply(s, Collect);
            && |t.collector.received| == |s.collector.received| + 1
            && (t.collector.Signing? <==> |t.collector.received| == |s.pcs|)
  {
    assert s.chan[0] in s.chan;
    assert s.chan[0].index in ChanSet(s.chan);
    CollectKeepsInv(s);
  }

  ghost predicate Stuck(s: State)
    requires |s.pcs| == |s.hashes|
  {
    forall e :: !Enabled(s, e)
  }

  lemma WorkerStep(s: State, i: nat) returns (e: Event)
    requires Inv(s) && i < |s.pcs| && !s.pcs[i].Awaiting? && !s.pcs[i].Finished?
    ensures Enabled(s, e)
  {
    SendsNeverBlock(s, i);
    match s.pcs[i]
    case Starting => e := Subscribe(i);
    case Computing => e := GiveUp(i);
    case Resumed(_) => e := PostDone(i, false);
    case Posted(_) => e := Hold(i);
    case Cleared => e := if s.lock == None then Lock(i) else Release(s.lock.value);
    case Submitting => e := Release(i);
    case Recorded => e := Unsubscribe(i);
  }

  /** While the collector gathers and everybody has posted, a message is on the channel. */
  lemma ChannelHasOne(pcs: seq<Pc>, chan: seq<Msg>, received: set<nat>)
    requires Owners(pcs, chan, received) && |received| < |pcs|
    requires forall i :: 0 <= i < |pcs| ==> HasPosted(pcs[i])
    ensures chan != []
  {
    if chan == [] {
      BelowCard(|pcs|);
      assert ChanSet(chan) == {};
      assert Below(|pcs|) <= received;
      SubsetCard(Below(|pcs|), received);
    }
  }

  lemma LastSteps(s: State) returns (e: Event)
    requires Inv(s) && !Final(s) && s.collector.Stopped?
    requires forall i :: 0 <= i < |s.pcs| ==> s.pcs[i].Awaiting? || s.pcs[i].Finished?
    ensures Enabled(s, e)
  {
    if i :| 0 <= i < |s.pcs| && s.pcs[i].Awaiting? {
      e := Wake(i);
    } else {
      assert forall i :: 0 <= i < |s.pcs| ==> s.pcs[i].Finished?;
      e := Close;
    }
  }

  lemma CollectorStep(s: State) returns (e: Event)
    requires Inv(s) && !Final(s)
    requires forall i :: 0 <= i < |s.pcs| ==> s.pcs[i].Awaiting? || s.pcs[i].Finished?
    ensures Enabled(s, e)
  {
    match s.collector
    case Gathering(received) =>
      ChannelHasOne(s.pcs, s.chan, received.Keys);
      e := Collect;
    case Signing(_) => e := Sign(None);
    case Replying(_) => e := Broadcast;
    case Stopped => e := LastSteps(s);
  }

  /** Deadlock freedom: in every state of the invariant some step is possible, until the round is
      over. */
  lemma NoDeadlock(s: State)
    requires Inv(s)
    ensures Stuck(s) ==> Final(s)
  {
    if !Final(s) {
      if i :| 0 <= i < |s.pcs| && !s.pcs[i].Awaiting? && !s.pcs[i].Finished? {
        var e := WorkerStep(s, i);
      } else {
        var e := CollectorStep(s);
      }
    }
  }

  /** The steps a worker has left, counting the reception of the messages it still posts. */
  function Rank(pc: Pc): nat {
    match pc
    case Starting => 11
    case Computing => 10
    case Awaiting => 8
    case Resumed(_) => 7
    case Posted(_) => 5
    case Cleared => 4
    case Submitting => 3
    case Recorded => 2
    case Finished => 1
  }

  function Ranks(pcs: seq<Pc>): nat {
    if pcs == [] then 0 else Ranks(pcs[..|pcs| - 1]) + Rank(pcs[|pcs| - 1])
  }

  function Measure(s: State): nat {
    Ranks(s.pcs) + |s.chan|
    + (match s.collector case Gathering(_) => 3 case Signing(_) => 2 case Replying(_) => 1 case Stopped => 0)
    + (if s.closed then 0 else 1)
  }

  lemma {:induction false} RanksUpdate(pcs: seq<Pc>, i: nat, pc: Pc)
    requires i < |pcs|
    ensures Ranks(pcs[i := pc]) == Ranks(pcs) - Rank(pcs[i]) + Rank(pc)
  {
    var init := pcs[..|pcs| - 1];
    if i == |pcs| - 1 {
      assert pcs[i := pc][..|pcs| - 1] == init;
    } else {
      RanksUpdate(init, i, pc);
      assert pcs[i := pc][..|pcs| - 1] == init[i := pc];
    }
  }

  lemma WorkerStepDecreases(s: State, e: Event, i: nat)
    requires Inv(s) && Enabled(s, e) && i < |s.pcs|
    requires e in {Subscribe(i), PostHash(i), GiveUp(i), Wake(i), PostDone(i, true), PostDone(i, false),
                   Hold(i), Confirm(i), Lock(i), Release(i), Unsubscribe(i)}
    ensures Measure(Apply(s, e)) < Measure(s)
  {
    SendsNeverBlock(s, i);
    RanksUpdate(s.pcs, i, Apply(s, e).pcs[i]);
  }

  lemma StepDecreases(s: State, e: Event)
    requires Inv(s) && Enabled(s, e)
    ensures Measure(Apply(s, e)) < Measure(s)
  {
    match e
    case Collect =>
    case Sign(_) =>
    case Broadcast =>
    case Close =>
    case _ => WorkerStepDecreases(s, e, e.i);
  }

  // ----- whole runs -----

  ghost predicate ValidRun(s: State, events: seq<Event>)
    requires |s.pcs| == |s.hashes|
    decreases events
  {
    events == [] ||
    (Enabled(s, events[0])
     && (var t := Apply(s, events[0]); |t.pcs| == |t.hashes| && ValidRun(t, events[1..])))
  }

  ghost function After(s: State, events: seq<Event>): State
    requires |s.pcs| == |s.hashes| && ValidRun(s, events)
    decreases events
  {
    if events == [] then s else After(Apply(s, events[0]), events[1..])
  }

  lemma {:induction false} RunKeepsInv(s: State, events: seq<Event>)
    requires Inv(s) && ValidRun(s, events)
    ensures Inv(After(s, events)) && |events| + Measure(After(s, events)) <= Measure(s)
    ensures After(s, events).hashes == s.hashes
    decreases events
  {
    if events != [] {
      StepKeepsInv(s, events[0]);
      StepDecreases(s, events[0]);
      RunKeepsInv(Apply(s, events[0]), events[1..]);
    }
  }

  lemma {:induction false} InitialRanks(n: nat)
    ensures Ranks(seq(n, _ => Starting)) == 11 * n
  {
    if n != 0 {
      InitialRanks(n - 1);
      assert seq(n, _ => Starting)[..n - 1] == seq(n - 1, _ => Starting);
    }
  }

  /** For every batch and every interleaving: nothing panics, the round takes at most 11n + 4 steps,
      and it can only stop when every worker and the collector have finished. */
  lemma EveryRunFinishes(hashes: seq<string>, events: seq<Event>)
    requires hashes != [] && ValidRun(Init(hashes), events)
    ensures var s := After(Init(hashes), events);
            && !s.panicked && |events| <= 11 * |hashes| + 4
            && |s.pcs| == |s.hashes| && (Stuck(s) ==> Final(s))
  {
    InitInv(hashes);
    RunKeepsInv(Init(hashes), events);
    InitialRanks(|hashes|);
    NoDeadlock(After(Init(hashes), events));
  }

  /** When the round is over each item has been booked exactly once, as confirmed or on hold. */
  lemma EachItemEndsOnce(hashes: seq<string>, events: seq<Event>)
    requires hashes != [] && ValidRun(Init(hashes), events) && Final(After(Init(hashes), events))
    ensures var s := After(Init(hashes), events);
            && NoDup(s.confirmed) && NoDup(s.held) && Elems(s.confirmed) !! Elems(s.held)
            && Elems(s.confirmed) + Elems(s.held) == Below(|hashes|)
            && |s.confirmed| + |s.held| == |hashes|
  {
    InitInv(hashes);
    RunKeepsInv(Init(hashes), events);
    var s := After(Init(hashes), events);
    NoDupCard(s.confirmed);
    NoDupCard(s.held);
    BelowCard(|hashes|);
    assert Elems(s.confirmed) + Elems(s.held) == Below(|hashes|);
  }

  // ----- what the books mean -----

  lemma StepBooks(s: State, e: Event, i: nat)
    requires |s.pcs| == |s.hashes| && Enabled(s, e)
    ensures i in Apply(s, e).confirmed <==> i in s.confirmed || e == Confirm(i)
    ensures i in Apply(s, e).held <==> i in s.held || e == Hold(i)
  {
  }

  /** The books say what happened, over any run: confirmed are the workers whose status check succeeded,
      on hold are those that put their item there. */
  lemma {:induction false} BooksAreEvents(s: State, events: seq<Event>, i: nat)
    requires |s.pcs| == |s.hashes| && ValidRun(s, events)
    ensures i in After(s, events).confirmed <==> i in s.confirmed || Confirm(i) in events
    ensures i in After(s, events).held <==> i in s.held || Hold(i) in events
    decreases events
  {
    if events != [] {
      StepBooks(s, events[0], i);
      BooksAreEvents(Apply(s, events[0]), events[1..], i);
      assert forall e :: e in events <==> e == events[0] || e in events[1..];
    }
  }

  /** A worker is confirmed only after its own sending succeeded. */
  lemma {:induction false} ConfirmNeedsSending(s: State, events: seq<Event>, i: nat)
    requires |s.pcs| == |s.hashes| && ValidRun(s, events) && Confirm(i) in events
    ensures PostDone(i, true) in events || (i < |s.pcs| && s.pcs[i] == Posted(true))
    decreases events
  {
    if events[0] != Confirm(i) {
      ConfirmNeedsSending(Apply(s, events[0]), events[1..], i);
      assert forall e :: e in events <==> e == events[0] || e in events[1..];
    }
  }

  /** Every reply on its way is one of seen, and a worker whose sending succeeded was given a signature
      of its own hash in one of them. */
  ghost predicate RepliesFrom(s: State, seen: set<Reply>) {
    && |s.pcs| == |s.hashes|
    && (s.collector.Replying? ==> s.collector.reply in seen)
    && (forall i, r :: i in s.clients && r in s.clients[i] ==> r in seen)
    && (forall i :: 0 <= i < |s.pcs| && s.pcs[i].Resumed? ==> s.pcs[i].reply in seen)
    && (forall i :: 0 <= i < |s.pcs| && s.pcs[i] == Posted(true) ==> Signed(seen, s.hashes[i]))
  }

  ghost predicate Signed(seen: set<Reply>, hash: string) {
    exists r :: r in seen && r.Some? && hash in r.value
  }

  function Replies(events: seq<Event>): set<Reply> {
    set e | e in events && e.Sign? :: e.reply
  }

  function ReplyOf(e: Event): set<Reply> {
    if e.Sign? then {e.reply} else {}
  }

  lemma RepliesSplit(events: seq<Event>, seen: set<Reply>)
    requires events != []
    ensures seen + Replies(events) == (seen + ReplyOf(events[0])) + Replies(events[1..])
  {
    assert forall e :: e in events <==> e == events[0] || e in events[1..];
  }

  lemma StepKeepsReplies(s: State, e: Event, seen: set<Reply>)
    requires RepliesFrom(s, seen) && Enabled(s, e)
    ensures RepliesFrom(Apply(s, e), seen + ReplyOf(e))
  {
    assert seen + {} == seen;
    if e.Sign? {
      SignKeepsReplies(s, e.reply, seen);
    } else if e.Broadcast? {
      assert forall i :: i in s.clients && s.clients[i] == [] ==> Delivered(s.clients, s.collector.reply)[i] == [s.collector.reply];
    } else if !e.Collect? && !e.Close? {
      WorkerKeepsReplies(s, e, seen);
    }
  }

  lemma SignKeepsReplies(s: State, reply: Reply, seen: set<Reply>)
    requires RepliesFrom(s, seen) && Enabled(s, Sign(reply))
    ensures RepliesFrom(Apply(s, Sign(reply)), seen + {reply})
  {
    forall i | 0 <= i < |s.pcs| && s.pcs[i] == Posted(true)
      ensures Signed(seen + {reply}, s.hashes[i])
    {
      var r :| r in seen && r.Some? && s.hashes[i] in r.value;
      assert r in seen + {reply};
    }
  }

  lemma WorkerKeepsReplies(s: State, e: Event, seen: set<Reply>)
    requires RepliesFrom(s, seen) && Enabled(s, e)
    requires !e.Sign? && !e.Broadcast? && !e.Collect? && !e.Close?
    ensures RepliesFrom(Apply(s, e), seen)
  {
    if e.Wake? {
      assert s.clients[e.i][0] in s.clients[e.i];
      assert forall r :: r in s.clients[e.i][1..] ==> r in s.clients[e.i];
    } else if e.PostDone? && e.ok {
      assert s.pcs[e.i].reply in seen && s.hashes[e.i] in s.pcs[e.i].reply.value;
      assert Signed(seen, s.hashes[e.i]);
    }
  }

  lemma {:induction false} RunKeepsReplies(s: State, events: seq<Event>, seen: set<Reply>)
    requires RepliesFrom(s, seen) && ValidRun(s, events)
    ensures RepliesFrom(After(s, events), seen + Replies(events))
    decreases events
  {
    if events != [] {
      StepKeepsReplies(s, events[0], seen);
      RunKeepsReplies(Apply(s, events[0]), events[1..], seen + ReplyOf(events[0]));
      RepliesSplit(events, seen);
    } else {
      assert seen + Replies(events) == seen;
    }
  }

  /** What a worker wakes up with is the outcome of the signing, nothing else. */
  lemma WakesWithTheSignature(hashes: seq<string>, events: seq<Event>, i: nat)
    requires ValidRun(Init(hashes), events) && i < |After(Init(hashes), events).pcs|
    requires After(Init(hashes), events).pcs[i].Resumed?
    ensures Sign(After(Init(hashes), events).pcs[i].reply) in events
  {
    RunKeepsReplies(Init(hashes), events, {});
  }

  lemma {:induction false} ConfirmedWasSigned(s: State, events: seq<Event>, seen: set<Reply>, i: nat)
    requires RepliesFrom(s, seen) && ValidRun(s, events) && Confirm(i) in events
    ensures i < |s.hashes| && Signed(seen + Replies(events), s.hashes[i])
    decreases events
  {
    if events[0] == Confirm(i) {
      var r :| r in seen && r.Some? && s.hashes[i] in r.value;
      assert r in seen + Replies(events);
    } else {
      assert forall e :: e in events <==> e == events[0] || e in events[1..];
      StepKeepsReplies(s, events[0], seen);
      ConfirmedWasSigned(Apply(s, events[0]), events[1..], seen + ReplyOf(events[0]), i);
      RepliesSplit(events, seen);
    }
  }

  /** The books of a round, in terms of what happened in it: an item counts as confirmed exactly when its
      status check succeeded, which needs a successful sending of a transaction whose hash was signed in
      this round; it is on hold exactly when its worker put it there. */
  lemma BooksOfARound(hashes: seq<string>, events: seq<Event>, i: nat)
    requires ValidRun(Init(hashes), events)
    ensures i in After(Init(hashes), events).confirmed <==> Confirm(i) in events
    ensures i in After(Init(hashes), events).held <==> Hold(i) in events
    ensures Confirm(i) in events ==>
      PostDone(i, true) in events && i < |hashes|
      && exists sigs :: Sign(Some(sigs)) in events && hashes[i] in sigs
  {
    BooksAreEvents(Init(hashes), events, i);
    if Confirm(i) in events {
      ConfirmNeedsSending(Init(hashes), events, i);
      ConfirmedWasSigned(Init(hashes), events, {}, i);
      var r :| r in {} + Replies(events) && r.Some? && hashes[i] in r.value;
      assert Sign(Some(r.value)) in events;
    }
  }

  /** A worker that sent its transaction has both ends open, one that did not can only hold its item. */
  lemma EndsOpen(s: State, i: nat)
    requires Inv(s) && i < |s.pcs|
    ensures s.pcs[i] == Posted(true) ==> Enabled(s, Confirm(i)) && Enabled(s, Hold(i))
    ensures s.pcs[i] == Posted(false) ==> !Enabled(s, Confirm(i)) && Enabled(s, Hold(i))
    ensures s.pcs[i].Cleared? && s.lock == None ==> Enabled(s, Lock(i))
  {
  }

  lemma OneMore(s: State, events: seq<Event>, e: Event)
    requires |s.pcs| == |s.hashes| && ValidRun(s, events) && |After(s, events).pcs| == |After(s, events).hashes|
    requires Enabled(After(s, events), e)
    requires var t := Apply(After(s, events), e); |t.pcs| == |t.hashes|
    ensures ValidRun(s, events + [e]) && After(s, events + [e]) == Apply(After(s, events), e)
    decreases events
  {
    if events == [] {
      assert [e][1..] == [];
      assert ValidRun(Apply(s, e), []);
      assert events + [e] == [e];
    } else {
      OneMore(Apply(s, events[0]), events[1..], e);
      assert (events + [e])[1..] == events[1..] + [e];
    }
  }

  /** It can all go well: a worker whose hash is signed is confirmed, and nothing is on hold. */
  lemma GoodRound(hash: string, sig: string) returns (events: seq<Event>)
    ensures ValidRun(Init([hash]), events) && Final(After(Init([hash]), events))
    ensures After(Init([hash]), events).confirmed == [0] && After(Init([hash]), events).held == []
  {
    var s0 := Init([hash]);
    var reply := Some(map[hash := sig]);
    events := [];
    OneMore(s0, events, Subscribe(0));
    events := events + [Subscribe(0)];
    OneMore(s0, events, PostHash(0));
    events := events + [PostHash(0)];
    assert After(s0, events).chan == [Msg(0, hash)];
    OneMore(s0, events, Collect);
    events := events + [Collect];
    OneMore(s0, events, Sign(reply));
    events := events + [Sign(reply)];
    OneMore(s0, events, Broadcast);
    events := events + [Broadcast];
    assert After(s0, events).clients[0] == [reply];
    OneMore(s0, events, Wake(0));
    events := events + [Wake(0)];
    OneMore(s0, events, PostDone(0, true));
    events := events + [PostDone(0, true)];
    OneMore(s0, events, Confirm(0));
    events := events + [Confirm(0)];
    OneMore(s0, events, Lock(0));
    events := events + [Lock(0)];
    OneMore(s0, events, Release(0));
    events := events + [Release(0)];
    OneMore(s0, events, Unsubscribe(0));
    events := events + [Unsubscribe(0)];
    OneMore(s0, events, Close);
    events := events + [Close];
  }

  // ----- what is signed -----

  /** The batch handed to the signers: the received bytes, in any order, except "none". */
  method BuildBatch(received: map<nat, string>) returns (batch: seq<string>)
    ensures multiset(batch) == Wanted(received, received.Keys)
  {
    batch := [];
    var rest := received.Keys;
    ghost var seen: set<nat> := {};
    while rest != {}
      invariant rest <= received.Keys && seen == received.Keys - rest
      invariant multiset(batch) == Wanted(received, seen)
    {
      var k :| k in rest;
      rest := rest - {k};
      WantedAdd(received, seen, k);
      seen := seen + {k};
      if received[k] != "none" {
        batch := batch + [received[k]];
      }
    }
    assert seen == received.Keys;
  }

  ghost function Wanted(received: map<nat, string>, keys: set<nat>): multiset<string>
    requires keys <= received.Keys
  {
    if keys == {} then multiset{}
    else
      var k := Largest(keys);
      Wanted(received, keys - {k}) + (if received[k] == "none" then multiset{} else multiset{received[k]})
  }

  ghost function Largest(keys: set<nat>): (m: nat)
    requires keys != {}
    ensures m in keys && forall k :: k in keys ==> k <= m
  {
    var k :| k in keys;
    if keys == {k} then k
    else
      var m := Largest(keys - {k});
      assert forall j :: j in keys ==> j == k || j in keys - {k};
      if k < m then m else k
  }

  lemma {:induction false} WantedAdd(received: map<nat, string>, keys: set<nat>, k: nat)
    requires keys <= received.Keys && k in received && k !in keys
    ensures Wanted(received, keys + {k})
            == Wanted(received, keys) + (if received[k] == "none" then multiset{} else multiset{received[k]})
    decreases keys
  {
    var m := Largest(keys + {k});
    if m == k {
      assert keys + {k} - {k} == keys;
    } else {
      assert m in keys;
      assert Largest(keys) == m;
      assert keys + {k} - {m} == (keys - {m}) + {k};
      WantedAdd(received, keys - {m}, k);
    }
  }

  /** What the batch contains: every received payload but "none". */
  lemma {:induction false} WantedMembers(received: map<nat, string>, keys: set<nat>, x: string)
    requires keys <= received.Keys
    ensures x in Wanted(received, keys) <==> x != "none" && exists k :: k in keys && received[k] == x
    decreases keys
  {
    if keys != {} {
      var k := Largest(keys);
      WantedMembers(received, keys - {k}, x);
      assert forall j :: j in keys <==> j == k || j in keys - {k};
    }
  }

  /** The signed batch is clean, i.e. has no "done", exactly when no worker gave up before its hash was
      ready. */
  lemma DoneIsSignedIff(s: State, batch: seq<string>)
    requires Inv(s) && s.collector.Signing? && multiset(batch) == Wanted(s.collector.received, s.collector.received.Keys)
    requires DONE !in s.hashes
    ensures DONE in batch <==> exists i :: 0 <= i < |s.pcs| && !s.pcs[i].Awaiting?
  {
    var received := s.collector.received;
    WantedMembers(received, received.Keys, DONE);
    assert DONE[0] != "none"[0];
    assert DONE in batch <==> DONE in multiset(batch);
    assert received.Keys == Below(|s.pcs|);
    forall i | 0 <= i < |s.pcs|
      ensures received[i] == DONE <==> !s.pcs[i].Awaiting?
    {
      assert i in received.Keys && FirstMessage(s.pcs, s.hashes, i, received[i]);
    }
    if i :| 0 <= i < |s.pcs| && !s.pcs[i].Awaiting? {
      assert i in received.Keys && received[i] == DONE;
    }
  }

  /** It happens: one worker that fails before its hash is ready, and the batch is "done" alone. */
  lemma DoneIsSigned(hash: string)
    ensures var events := [Subscribe(0), GiveUp(0), Collect];
            ValidRun(Init([hash]), events)
            && After(Init([hash]), events).collector == Signing(map[0 := DONE])
  {
    var s0 := Init([hash]);
    var s1 := Apply(s0, Subscribe(0));
    var s2 := Apply(s1, GiveUp(0));
    assert s2.chan == [Msg(0, DONE)];
    var s3 := Apply(s2, Collect);
    assert s3.collector == Signing(map[0 := DONE]);
    assert [Subscribe(0), GiveUp(0), Collect][1..] == [GiveUp(0), Collect];
    assert [GiveUp(0), Collect][1..] == [Collect] && [Collect][1..] == [];
    assert ValidRun(s3, []) && ValidRun(s2, [Collect]) && ValidRun(s1, [GiveUp(0), Collect]);
  }

  /** The workers post "done" while the collector filters "none", so every worker contributes one
      message to the batch: the hash of each one that waits, and a "done" for each one that gave up. */
  lemma BatchHoldsEveryWorker(s: State, batch: seq<string>)
    requires Inv(s) && s.collector.Signing? && multiset(batch) == Wanted(s.collector.received, s.collector.received.Keys)
    requires "none" !in s.hashes
    ensures |batch| == |s.pcs|
    ensures forall i :: 0 <= i < |s.pcs| ==> (if s.pcs[i].Awaiting? then s.hashes[i] else DONE) in batch
  {
    var received := s.collector.received;
    ReceivedBytes(s, received);
    WantedAll(received, received.Keys);
    assert received.Keys == Below(|s.pcs|);
    BelowCard(|s.pcs|);
    assert |multiset(batch)| == |batch|;
    forall i | 0 <= i < |s.pcs|
      ensures (if s.pcs[i].Awaiting? then s.hashes[i] else DONE) in batch
    {
      assert i in received.Keys && received[i] in Wanted(received, received.Keys);
      assert received[i] in multiset(batch);
    }
  }

  lemma ReceivedBytes(s: State, received: map<nat, string>)
    requires |s.pcs| == |s.hashes| && "none" !in s.hashes && Bytes(s.pcs, s.hashes, [], received)
    ensures forall i :: i in received ==>
      i < |s.pcs| && received[i] == (if s.pcs[i].Awaiting? then s.hashes[i] else DONE) && received[i] != "none"
  {
    forall i | i in received
      ensures i < |s.pcs| && received[i] == (if s.pcs[i].Awaiting? then s.hashes[i] else DONE) && received[i] != "none"
    {
      assert FirstMessage(s.pcs, s.hashes, i, received[i]);
      assert DONE[0] != "none"[0];
    }
  }

  lemma {:induction false} WantedAll(received: map<nat, string>, keys: set<nat>)
    requires keys <= received.Keys && forall k :: k in received ==> received[k] != "none"
    ensures |Wanted(received, keys)| == |keys|
    ensures forall k :: k in keys ==> received[k] in Wanted(received, keys)
    decreases keys
  {
    if keys != {} {
      var k := Largest(keys);
      WantedAll(received, keys - {k});
      assert |keys| == |keys - {k}| + 1;
    }
  }
}
