/** The life of one request in the books: where it is, what each step does to it, and how it gets to
    the end (bridge/bridge_service.go, bridge/pubchain_routine.go). */
module RequestLife {
  import opened Common
  import opened BatchOrder
  import opened KeyedStore
  import opened Lifecycle

  datatype Where = Unseen | Mapped | Queued | Working | OnHold | Rechecking | Saved | Settled | Dropped

  ghost predicate At(s: State, r: Req, w: Where) {
    match w
    case Unseen => r !in s.added
    case Mapped => r.key in s.pending && s.pending[r.key] == r
    case Queued => r in Flatten(s.channel)
    case Working => r in s.working
    case OnHold => r in s.onHold
    case Rechecking => r in s.rechecking
    case Saved => r in s.stored
    case Settled => r in s.settled
    case Dropped => r in s.dropped
  }

  /** What a step does to a request that is at w. */
  ghost function Next(s: State, e: Event, r: Req, w: Where): Where
    requires Enabled(s, e)
  {
    match e
    case Observe(x) => if x == r then Mapped else if w.Mapped? && x.key == r.key then Dropped else w
    case Feed(_, _, keys, ok) => if w.Mapped? && r.key in keys then (if ok then Queued else Dropped) else w
    case Take => if w.Queued? && r in s.channel[0] then Working else w
    case Finish(x, v) =>
      if x != r then w
      else (match v
            case Settle => Settled
            case PutOnHold => OnHold
            case LetGo(_) => Dropped)
    case Dump => if w.OnHold? then Rechecking else w
    case Recheck(x, found) =>
      if x == r then (if found then Settled else Mapped)
      else if !found && w.Mapped? && x.key == r.key then Dropped
      else w
    case Shutdown(saved) =>
      if w.Mapped? || w.OnHold? then (if r in saved then Saved else Dropped)
      else if w.Queued? then Dropped
      else w
    case Restart => if w.Saved? then Mapped else w
  }

  lemma CountsAt(s: State, r: Req)
    ensures InMap(s.pending, r) > 0 <==> At(s, r, Mapped)
    ensures multiset(Flatten(s.channel))[r] > 0 <==> At(s, r, Queued)
    ensures s.working[r] > 0 <==> At(s, r, Working)
    ensures multiset(s.onHold)[r] > 0 <==> At(s, r, OnHold)
    ensures s.rechecking[r] > 0 <==> At(s, r, Rechecking)
    ensures multiset(s.stored)[r] > 0 <==> At(s, r, Saved)
    ensures s.settled[r] > 0 <==> At(s, r, Settled)
    ensures s.dropped[r] > 0 <==> At(s, r, Dropped)
  {
  }

  /** A request is at exactly one place. */
  lemma ExactlyOnePlace(s: State, r: Req)
    requires Inv(s)
    ensures exists w :: At(s, r, w)
    ensures forall w, w' :: At(s, r, w) && At(s, r, w') ==> w == w'
  {
    CountsAt(s, r);
    if r !in s.added {
      assert At(s, r, Unseen);
    }
    assert Places(s, r) == if r in s.added then 1 else 0;
    assert At(s, r, Unseen) || At(s, r, Mapped) || At(s, r, Queued) || At(s, r, Working) || At(s, r, OnHold)
      || At(s, r, Rechecking) || At(s, r, Saved) || At(s, r, Settled) || At(s, r, Dropped);
  }

  lemma FeedMoves(s: State, e: Event, r: Req, w: Where)
    requires Enabled(s, e) && e.Feed? && At(s, r, w)
    ensures At(Apply(s, e), r, Next(s, e, r, w))
  {
    assert forall i :: 0 <= i < |e.keys| ==> e.keys[i] in Elems(e.keys);
    var batch := Batch(s.pending, e.keys);
    if r.key in e.keys && w.Mapped? {
      var i :| 0 <= i < |e.keys| && e.keys[i] == r.key;
      assert batch[i] == r;
      assert r in batch;
    }
    FlattenAppend(s.channel, batch);
  }

  lemma TakeMoves(s: State, r: Req, w: Where)
    requires Enabled(s, Take) && At(s, r, w)
    ensures At(Apply(s, Take), r, Next(s, Take, r, w))
  {
    assert Flatten(s.channel) == s.channel[0] + Flatten(s.channel[1..]);
  }

  lemma FinishMoves(s: State, x: Req, v: Verdict, r: Req, w: Where)
    requires Enabled(s, Finish(x, v)) && At(s, r, w)
    ensures At(Apply(s, Finish(x, v)), r, Next(s, Finish(x, v), r, w))
  {
    match v
    case Settle => assert x in s.settled + multiset{x};
    case PutOnHold => assert x in s.onHold + [x];
    case LetGo(_) => assert x in s.dropped + multiset{x};
  }

  lemma DumpMoves(s: State, r: Req, w: Where)
    requires Enabled(s, Dump) && At(s, r, w)
    ensures At(Apply(s, Dump), r, Next(s, Dump, r, w))
  {
    assert r in s.onHold <==> r in multiset(s.onHold);
  }

  lemma RecheckMoves(s: State, x: Req, found: bool, r: Req, w: Where)
    requires Enabled(s, Recheck(x, found)) && At(s, r, w)
    ensures At(Apply(s, Recheck(x, found)), r, Next(s, Recheck(x, found), r, w))
  {
  }

  lemma ShutdownMoves(s: State, saved: seq<Req>, r: Req, w: Where)
    requires Inv(s) && Enabled(s, Shutdown(saved)) && At(s, r, w)
    ensures At(Apply(s, Shutdown(saved)), r, Next(s, Shutdown(saved), r, w))
  {
    CountsAt(s, r);
    PutAllCount(s.pending, s.onHold, r);
    EnumeratedCount(saved, PutAll(s.pending, s.onHold), r);
    assert r in saved <==> multiset(saved)[r] > 0;
    assert r in Flatten(s.channel) <==> multiset(Flatten(s.channel))[r] > 0;
    assert Apply(s, Shutdown(saved)).dropped[r]
           == s.dropped[r] + multiset(Flatten(s.channel))[r] + OverwrittenAll(s.pending, s.onHold)[r];
  }

  lemma RestartMoves(s: State, r: Req, w: Where)
    requires Inv(s) && Enabled(s, Restart) && At(s, r, w)
    ensures At(Apply(s, Restart), r, Next(s, Restart, r, w))
  {
    if w.Saved? {
      PutAllDistinct(map[], s.stored);
      PutAllCount(map[], s.stored, r);
      assert multiset(s.stored)[r] > 0;
    }
  }

  /** Every step moves every request as its own life says: what one of them does to the books is the
      sum of what it does to the requests. */
  lemma StepMoves(s: State, e: Event, r: Req, w: Where)
    requires Inv(s) && Enabled(s, e) && At(s, r, w)
    ensures At(Apply(s, e), r, Next(s, e, r, w))
  {
    match e
    case Observe(x) =>
    case Feed(_, _, _, _) => FeedMoves(s, e, r, w);
    case Take => TakeMoves(s, r, w);
    case Finish(x, v) => FinishMoves(s, x, v, r, w);
    case Dump => DumpMoves(s, r, w);
    case Recheck(x, found) => RecheckMoves(s, x, found, r, w);
    case Shutdown(saved) => ShutdownMoves(s, saved, r, w);
    case Restart => RestartMoves(s, r, w);
  }

  // ----- laws over runs, by events alone -----

  function Settlements(events: seq<Event>, r: Req): nat {
    if events == [] then 0
    else (if Settles(events[0], r) then 1 else 0) + Settlements(events[1..], r)
  }

  predicate Settles(e: Event, r: Req) {
    (e.Finish? && e.req == r && e.verdict.Settle?) || (e.Recheck? && e.req == r && e.found)
  }

  lemma StepSettles(s: State, e: Event, r: Req)
    requires Enabled(s, e)
    ensures Apply(s, e).settled[r] == s.settled[r] + (if Settles(e, r) then 1 else 0)
  {
    if e.Finish? {
      FinishSettles(s, e.req, e.verdict, r);
    } else if e.Recheck? {
      RecheckSettles(s, e.req, e.found, r);
    } else {
      OthersSettleNothing(s, e);
    }
  }

  lemma OthersSettleNothing(s: State, e: Event)
    requires Enabled(s, e) && !e.Finish? && !e.Recheck?
    ensures Apply(s, e).settled == s.settled
  {
  }

  lemma FinishSettles(s: State, x: Req, v: Verdict, r: Req)
    requires Enabled(s, Finish(x, v))
    ensures Apply(s, Finish(x, v)).settled[r] == s.settled[r] + (if x == r && v.Settle? then 1 else 0)
  {
    assert v.Settle? || v.PutOnHold? || v.LetGo?;
  }

  lemma RecheckSettles(s: State, x: Req, found: bool, r: Req)
    requires Enabled(s, Recheck(x, found))
    ensures Apply(s, Recheck(x, found)).settled[r] == s.settled[r] + (if x == r && found then 1 else 0)
  {
  }

  /** A request is settled exactly as often as a worker saw it confirmed, or a recheck found it. */
  lemma {:induction false} SettledByEvents(s: State, events: seq<Event>, r: Req)
    requires ValidRun(s, events)
    ensures After(s, events).settled[r] == s.settled[r] + Settlements(events, r)
    decreases events
  {
    if events != [] {
      StepSettles(s, events[0], r);
      SettledByEvents(Apply(s, events[0]), events[1..], r);
    }
  }

  /** The steps that take a request out of the map. */
  predicate Unmaps(e: Event, r: Req) {
    || e.Shutdown?
    || (e.Feed? && r.key in e.keys)
    || (e.Observe? && e.req != r && e.req.key == r.key)
    || (e.Recheck? && e.req != r && e.req.key == r.key && !e.found)
  }

  /** A request that was observed, or dumped and then not found, is in the map from that step on, until
      it is fed, overwritten by an equal index, or the node stops. */
  lemma {:induction false} StaysInMap(s: State, events: seq<Event>, r: Req)
    requires Inv(s) && ValidRun(s, events) && At(s, r, Mapped)
    requires forall e :: e in events ==> !Unmaps(e, r)
    ensures At(After(s, events), r, Mapped)
    decreases events
  {
    if events != [] {
      var e := events[0];
      assert e in events;
      ExactlyOnePlace(s, r);
      CountsAt(s, r);
      StepMoves(s, e, r, Mapped);
      StepKeepsInv(s, e);
      OutsideMapOnly(s, e, r);
      StaysInMap(Apply(s, e), events[1..], r);
    }
  }

  lemma OutsideMapOnly(s: State, e: Event, r: Req)
    requires Inv(s) && Enabled(s, e) && At(s, r, Mapped) && !Unmaps(e, r)
    ensures Next(s, e, r, Mapped) == Mapped
  {
    ExactlyOnePlace(s, r);
    assert !At(s, r, Unseen) && !At(s, r, Working) && !At(s, r, Rechecking);
    assert e.Observe? && e.req == r ==> At(s, r, Unseen);
    assert e.Finish? && e.req == r ==> At(s, r, Working);
    assert e.Recheck? && e.req == r ==> At(s, r, Rechecking);
  }

  /** How a request gets into the map, and from there to the workers. */
  lemma EntersAndLeaves(s: State, r: Req)
    requires Inv(s)
    ensures Enabled(s, Observe(r)) ==> At(Apply(s, Observe(r)), r, Mapped)
    ensures forall n, chainType, keys :: Enabled(s, Feed(n, chainType, keys, true)) && At(s, r, Mapped) && r.key in keys
              ==> At(Apply(s, Feed(n, chainType, keys, true)), r, Queued)
    ensures Enabled(s, Take) && r in s.channel[0] ==> At(Apply(s, Take), r, Working)
  {
    if Enabled(s, Observe(r)) {
      StepMoves(s, Observe(r), r, Unseen);
    }
    forall n, chainType, keys | Enabled(s, Feed(n, chainType, keys, true)) && At(s, r, Mapped) && r.key in keys
      ensures At(Apply(s, Feed(n, chainType, keys, true)), r, Queued)
    {
      StepMoves(s, Feed(n, chainType, keys, true), r, Mapped);
    }
    if Enabled(s, Take) && r in s.channel[0] {
      assert Flatten(s.channel) == s.channel[0] + Flatten(s.channel[1..]);
      StepMoves(s, Take, r, Queued);
    }
  }

  /** A fed batch holds requests that were in the map: of any kind inbound, of one chain outbound, and all
      of these when the batch is not full. */
  lemma FedBatchIsOfItsChain(s: State, n: nat, chainType: string, keys: seq<string>, ok: bool, k: string)
    requires Enabled(s, Feed(n, chainType, keys, ok))
    ensures k in keys ==> k in s.pending && (s.inbound || s.pending[k].chainType == chainType)
    ensures |keys| <= n
    ensures |keys| < n && k in s.pending && (s.inbound || s.pending[k].chainType == chainType) ==> k in keys
  {
    var candidates := Candidates(s, chainType);
    assert k in keys <==> k in Elems(keys);
    if |keys| < n {
      NoDupCard(keys);
      AllTaken(Elems(keys), candidates);
    }
  }

  lemma AllTaken(a: set<string>, b: set<string>)
    requires a <= b && |a| == |b|
    ensures a == b
  {
    if a != b {
      var x :| x in b && x !in a;
      SubsetCard(a, b - {x});
    }
  }

  /** Where the workers put a request. */
  lemma WorkersPut(s: State, r: Req)
    requires Inv(s)
    ensures Enabled(s, Finish(r, Settle)) ==> At(Apply(s, Finish(r, Settle)), r, Settled)
    ensures Enabled(s, Finish(r, PutOnHold)) ==> At(Apply(s, Finish(r, PutOnHold)), r, OnHold)
    ensures forall x :: Enabled(s, Finish(r, LetGo(x))) ==> At(Apply(s, Finish(r, LetGo(x))), r, Dropped)
  {
    if Enabled(s, Finish(r, Settle)) {
      StepMoves(s, Finish(r, Settle), r, Working);
    }
    if Enabled(s, Finish(r, PutOnHold)) {
      StepMoves(s, Finish(r, PutOnHold), r, Working);
    }
    forall x | Enabled(s, Finish(r, LetGo(x)))
      ensures At(Apply(s, Finish(r, LetGo(x))), r, Dropped)
    {
      StepMoves(s, Finish(r, LetGo(x)), r, Working);
    }
  }

  /** Nothing is decided beforehand: whatever the workers, the rechecks and a feed come to, the books can
      record it. */
  lemma EveryAnswerIsPossible(s: State, r: Req)
    requires s.running
    ensures At(s, r, Working) ==> Enabled(s, Finish(r, Settle)) && Enabled(s, Finish(r, PutOnHold))
    ensures At(s, r, Working) ==>
      if s.inbound then Enabled(s, Finish(r, LetGo(ConnectionFailed))) && Enabled(s, Finish(r, LetGo(SharedHash)))
      else Enabled(s, Finish(r, LetGo(EmptyRecord)))
    ensures At(s, r, Rechecking) ==> Enabled(s, Recheck(r, true)) && Enabled(s, Recheck(r, false))
    ensures At(s, r, Unseen) ==> Enabled(s, Observe(r))
    ensures forall n, chainType, keys :: IsBatch(Candidates(s, chainType), n, keys) ==>
      Enabled(s, Feed(n, chainType, keys, true)) && (!s.inbound ==> Enabled(s, Feed(n, chainType, keys, false)))
    ensures s.channel != [] ==> Enabled(s, Take)
    ensures Enabled(s, Dump)
  {
  }

  /** An item on hold is checked again: found, it is settled, and otherwise it is back in the map. */
  lemma HeldIsRechecked(s: State, r: Req)
    requires Inv(s)
    ensures Enabled(s, Dump) && At(s, r, OnHold) ==> At(Apply(s, Dump), r, Rechecking)
    ensures Enabled(s, Recheck(r, false)) ==> At(Apply(s, Recheck(r, false)), r, Mapped)
    ensures Enabled(s, Recheck(r, true)) ==> At(Apply(s, Recheck(r, true)), r, Settled)
  {
    if Enabled(s, Dump) && At(s, r, OnHold) {
      StepMoves(s, Dump, r, OnHold);
    }
    if Enabled(s, Recheck(r, false)) {
      StepMoves(s, Recheck(r, false), r, Rechecking);
    }
    if Enabled(s, Recheck(r, true)) {
      StepMoves(s, Recheck(r, true), r, Rechecking);
    }
  }

  /** The batches fed during a run, and the batches taken. */
  ghost function FedBatches(s: State, events: seq<Event>): seq<seq<Req>>
    requires ValidRun(s, events)
    decreases events
  {
    if events == [] then [] else FedBy(s, events[0]) + FedBatches(Apply(s, events[0]), events[1..])
  }

  ghost function FedBy(s: State, e: Event): seq<seq<Req>>
    requires Enabled(s, e)
  {
    if e.Feed? && e.ok then
      assert forall i :: 0 <= i < |e.keys| ==> e.keys[i] in Elems(e.keys);
      [Batch(s.pending, e.keys)]
    else []
  }

  ghost function TakenBy(s: State, e: Event): seq<seq<Req>>
    requires Enabled(s, e)
  {
    if e.Take? then [s.channel[0]] else []
  }

  ghost function TakenBatches(s: State, events: seq<Event>): seq<seq<Req>>
    requires ValidRun(s, events)
    decreases events
  {
    if events == [] then [] else TakenBy(s, events[0]) + TakenBatches(Apply(s, events[0]), events[1..])
  }

  /** Batches reach the workers whole, and in the order in which they were fed. */
  lemma {:induction false} FirstFedFirstTaken(s: State, events: seq<Event>)
    requires ValidRun(s, events) && forall e :: e in events ==> !e.Shutdown?
    ensures s.channel + FedBatches(s, events) == TakenBatches(s, events) + After(s, events).channel
    decreases events
  {
    if events != [] {
      assert events[0] in events && forall e :: e in events[1..] ==> e in events;
      var t := Apply(s, events[0]);
      FirstFedFirstTaken(t, events[1..]);
      ChannelStep(s, events[0]);
      Chain(s.channel, FedBy(s, events[0]), FedBatches(t, events[1..]),
            TakenBy(s, events[0]), TakenBatches(t, events[1..]), t.channel, After(t, events[1..]).channel);
    }
  }

  lemma ChannelStep(s: State, e: Event)
    requires Enabled(s, e) && !e.Shutdown?
    ensures s.channel + FedBy(s, e) == TakenBy(s, e) + Apply(s, e).channel
  {
    if e.Take? {
      assert s.channel == [s.channel[0]] + s.channel[1..];
      assert s.channel + [] == s.channel;
    } else if e.Feed? && e.ok {
      assert [] + Apply(s, e).channel == Apply(s, e).channel;
    } else {
      assert s.channel + [] == [] + s.channel;
    }
  }

  lemma Chain<T>(c: seq<T>, fed: seq<T>, laterFed: seq<T>, taken: seq<T>, laterTaken: seq<T>, c': seq<T>, c'': seq<T>)
    requires c + fed == taken + c' && c' + laterFed == laterTaken + c''
    ensures c + (fed + laterFed) == (taken + laterTaken) + c''
  {
    assert c + (fed + laterFed) == (c + fed) + laterFed;
    assert (taken + c') + laterFed == taken + (c' + laterFed);
    assert taken + (laterTaken + c'') == (taken + laterTaken) + c'';
  }

  // ----- every request can still be settled -----

  /** A stopped node holds nothing but what it saved. */
  predicate Clean(s: State) {
    !s.running ==> s.channel == [] && s.working == multiset{} && s.onHold == [] && s.rechecking == multiset{}
  }

  lemma {:induction false} RunKeepsClean(s: State, events: seq<Event>)
    requires Clean(s) && ValidRun(s, events)
    ensures Clean(After(s, events))
    decreases events
  {
    if events != [] {
      RunKeepsClean(Apply(s, events[0]), events[1..]);
    }
  }

  lemma Then(s: State, e: Event, rest: seq<Event>)
    requires Enabled(s, e) && ValidRun(Apply(s, e), rest)
    ensures ValidRun(s, [e] + rest) && After(s, [e] + rest) == After(Apply(s, e), rest)
  {
    assert ([e] + rest)[1..] == rest;
  }

  lemma FromWorking(s: State, r: Req) returns (events: seq<Event>)
    requires Inv(s) && s.running && At(s, r, Working)
    ensures ValidRun(s, events) && At(After(s, events), r, Settled)
  {
    StepMoves(s, Finish(r, Settle), r, Working);
    Then(s, Finish(r, Settle), []);
    events := [Finish(r, Settle)] + [];
  }

  lemma {:induction false} FromQueued(s: State, r: Req) returns (events: seq<Event>)
    requires Inv(s) && s.running && At(s, r, Queued)
    ensures ValidRun(s, events) && At(After(s, events), r, Settled)
    decreases |s.channel|
  {
    StepMoves(s, Take, r, Queued);
    StepKeepsInv(s, Take);
    var rest;
    if r in s.channel[0] {
      rest := FromWorking(Apply(s, Take), r);
    } else {
      rest := FromQueued(Apply(s, Take), r);
    }
    Then(s, Take, rest);
    events := [Take] + rest;
  }

  lemma FromMap(s: State, r: Req) returns (events: seq<Event>)
    requires Inv(s) && s.running && At(s, r, Mapped)
    ensures ValidRun(s, events) && At(After(s, events), r, Settled)
  {
    var keys := SortExists(Candidates(s, r.chainType));
    var e := Feed(|Candidates(s, r.chainType)|, r.chainType, keys, true);
    assert r.key in Elems(keys);
    StepMoves(s, e, r, Mapped);
    StepKeepsInv(s, e);
    var rest := FromQueued(Apply(s, e), r);
    Then(s, e, rest);
    events := [e] + rest;
  }

  lemma FromRechecking(s: State, r: Req) returns (events: seq<Event>)
    requires Inv(s) && s.running && At(s, r, Rechecking)
    ensures ValidRun(s, events) && At(After(s, events), r, Settled)
  {
    StepMoves(s, Recheck(r, true), r, Rechecking);
    Then(s, Recheck(r, true), []);
    events := [Recheck(r, true)] + [];
  }

  lemma FromHold(s: State, r: Req) returns (events: seq<Event>)
    requires Inv(s) && s.running && At(s, r, OnHold)
    ensures ValidRun(s, events) && At(After(s, events), r, Settled)
  {
    StepMoves(s, Dump, r, OnHold);
    StepKeepsInv(s, Dump);
    var rest := FromRechecking(Apply(s, Dump), r);
    Then(s, Dump, rest);
    events := [Dump] + rest;
  }

  lemma FromSaved(s: State, r: Req) returns (events: seq<Event>)
    requires Inv(s) && !s.running && At(s, r, Saved)
    ensures ValidRun(s, events) && At(After(s, events), r, Settled)
  {
    StepMoves(s, Restart, r, Saved);
    StepKeepsInv(s, Restart);
    var rest := FromMap(Apply(s, Restart), r);
    Then(s, Restart, rest);
    events := [Restart] + rest;
  }

  /** No request is ever stuck: from any state of the books, running or stopped, each one that is neither
      settled nor dropped can still be settled. */
  lemma CanStillBeSettled(inbound: bool, before: seq<Event>, r: Req) returns (events: seq<Event>)
    requires ValidRun(Init(inbound), before)
    requires var s := After(Init(inbound), before); r in s.added && !At(s, r, Dropped)
    ensures ValidRun(After(Init(inbound), before), events)
    ensures At(After(After(Init(inbound), before), events), r, Settled)
  {
    var s := After(Init(inbound), before);
    RunKeepsInv(Init(inbound), before);
    RunKeepsClean(Init(inbound), before);
    ExactlyOnePlace(s, r);
    var w :| At(s, r, w);
    match w
    case Mapped => events := FromMap(s, r);
    case Queued => events := FromQueued(s, r);
    case Working => events := FromWorking(s, r);
    case OnHold => events := FromHold(s, r);
    case Rechecking => events := FromRechecking(s, r);
    case Saved => events := FromSaved(s, r);
    case Settled => events := [];
  }
}
