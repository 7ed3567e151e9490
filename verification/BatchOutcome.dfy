/** What becomes of a batch that was taken from the channel: the verdicts of processInbound and of
    processEachOutBound (bridge/bridge_service.go), item by item, as steps of the books. */
module BatchOutcome {
  import opened Common
  import opened Lifecycle
  import InboundBatch
  import MintBatch
  import OutboundBatch
  import Quorum
  import Rendezvous

  /** Where a verdict sends a request. */
  datatype Place = ToChain | ToHold | ToDropped

  function PlaceOf(v: Verdict): Place {
    match v
    case Settle => ToChain
    case PutOnHold => ToHold
    case LetGo(_) => ToDropped
  }

  function FinishEvents(batch: seq<Req>, vs: seq<Verdict>): seq<Event>
    requires |vs| == |batch|
  {
    if batch == [] then [] else [Finish(batch[0], vs[0])] + FinishEvents(batch[1..], vs[1..])
  }

  /** The requests of the batch that go to one place. */
  function Going(batch: seq<Req>, vs: seq<Verdict>, p: Place): seq<Req>
    requires |vs| == |batch|
  {
    if batch == [] then []
    else (if PlaceOf(vs[0]) == p then [batch[0]] else []) + Going(batch[1..], vs[1..], p)
  }

  function Finished(s: State, batch: seq<Req>, vs: seq<Verdict>): State
    requires |vs| == |batch|
  {
    s.(working := s.working - multiset(batch), settled := s.settled + multiset(Going(batch, vs, ToChain)),
       onHold := s.onHold + Going(batch, vs, ToHold), dropped := s.dropped + multiset(Going(batch, vs, ToDropped)))
  }

  function One(v: Verdict, r: Req, p: Place): seq<Req> {
    if PlaceOf(v) == p then [r] else []
  }

  lemma AddFirst(m: multiset<Req>, batch: seq<Req>, vs: seq<Verdict>, p: Place)
    requires |vs| == |batch| > 0
    ensures m + multiset(One(vs[0], batch[0], p)) + multiset(Going(batch[1..], vs[1..], p)) == m + multiset(Going(batch, vs, p))
  {
    assert Going(batch, vs, p) == One(vs[0], batch[0], p) + Going(batch[1..], vs[1..], p);
  }

  lemma AppendFirst(onHold: seq<Req>, batch: seq<Req>, vs: seq<Verdict>, p: Place)
    requires |vs| == |batch| > 0
    ensures onHold + One(vs[0], batch[0], p) + Going(batch[1..], vs[1..], p) == onHold + Going(batch, vs, p)
  {
    assert Going(batch, vs, p) == One(vs[0], batch[0], p) + Going(batch[1..], vs[1..], p);
  }

  lemma FinishOne(s: State, r: Req, v: Verdict)
    requires Enabled(s, Finish(r, v))
    ensures Apply(s, Finish(r, v))
            == s.(working := s.working - multiset{r}, settled := s.settled + multiset(One(v, r, ToChain)),
                  onHold := s.onHold + One(v, r, ToHold), dropped := s.dropped + multiset(One(v, r, ToDropped)))
  {
    assert forall m: multiset<Req> :: m + multiset([]) == m;
    assert multiset([r]) == multiset{r};
    assert s.onHold + [] == s.onHold;
    match v
    case Settle =>
    case PutOnHold =>
    case LetGo(_) =>
  }

  lemma FirstOut(working: multiset<Req>, batch: seq<Req>)
    requires batch != [] && multiset(batch) <= working
    ensures batch[0] in working && multiset(batch[1..]) <= working - multiset{batch[0]}
    ensures working - multiset{batch[0]} - multiset(batch[1..]) == working - multiset(batch)
  {
    assert batch == [batch[0]] + batch[1..];
    assert multiset(batch) == multiset{batch[0]} + multiset(batch[1..]);
  }

  lemma FinishFirst(s: State, batch: seq<Req>, vs: seq<Verdict>)
    requires |vs| == |batch| > 0 && s.running && batch[0] in s.working && Allowed(s.inbound, vs[0])
    requires multiset(batch) <= s.working
    ensures Finished(Apply(s, Finish(batch[0], vs[0])), batch[1..], vs[1..]) == Finished(s, batch, vs)
  {
    FinishOne(s, batch[0], vs[0]);
    FirstOut(s.working, batch);
    AddFirst(s.settled, batch, vs, ToChain);
    AppendFirst(s.onHold, batch, vs, ToHold);
    AddFirst(s.dropped, batch, vs, ToDropped);
  }

  lemma FinishStep(s: State, e: Event, events: seq<Event>)
    requires Enabled(s, e) && ValidRun(Apply(s, e), events)
    ensures ValidRun(s, [e] + events) && After(s, [e] + events) == After(Apply(s, e), events)
  {
    assert ([e] + events)[1..] == events;
  }

  /** Finishing a batch, one step per item, takes exactly the batch out of the workers' hands and puts
      each item where its verdict says. */
  lemma {:induction false} FinishBatch(s: State, batch: seq<Req>, vs: seq<Verdict>)
    requires |vs| == |batch| && s.running && multiset(batch) <= s.working
    requires forall i :: 0 <= i < |vs| ==> Allowed(s.inbound, vs[i])
    ensures |FinishEvents(batch, vs)| == |batch| && ValidRun(s, FinishEvents(batch, vs))
    ensures After(s, FinishEvents(batch, vs)) == Finished(s, batch, vs)
    decreases batch
  {
    if batch == [] {
      assert FinishEvents(batch, vs) == [];
      NothingFinished(s, batch, vs);
    } else {
      var e := Finish(batch[0], vs[0]);
      TailReady(s, batch, vs);
      FinishFirst(s, batch, vs);
      FinishBatch(Apply(s, e), batch[1..], vs[1..]);
      FinishStep(s, e, FinishEvents(batch[1..], vs[1..]));
    }
  }

  lemma TailReady(s: State, batch: seq<Req>, vs: seq<Verdict>)
    requires |vs| == |batch| > 0 && s.running && multiset(batch) <= s.working && Allowed(s.inbound, vs[0])
    ensures var e := Finish(batch[0], vs[0]);
            && Enabled(s, e) && Apply(s, e).running && Apply(s, e).inbound == s.inbound
            && multiset(batch[1..]) <= Apply(s, e).working
  {
    FirstOut(s.working, batch);
    FinishOne(s, batch[0], vs[0]);
  }

  lemma NothingFinished(s: State, batch: seq<Req>, vs: seq<Verdict>)
    requires batch == [] && vs == []
    ensures Finished(s, batch, vs) == s
  {
    assert multiset(batch) == multiset{};
    assert s.onHold + [] == s.onHold;
  }

  /** A batch is worked off from the channel to empty hands. */
  lemma TakeAndFinish(s: State, vs: seq<Verdict>)
    requires Inv(s) && Enabled(s, Take) && s.working == multiset{} && |vs| == |s.channel[0]|
    requires forall i :: 0 <= i < |vs| ==> Allowed(s.inbound, vs[i])
    ensures var events := FinishEvents(s.channel[0], vs);
            && ValidRun(Apply(s, Take), events) && After(Apply(s, Take), events).working == multiset{}
            && Inv(After(Apply(s, Take), events))
  {
    FinishBatch(Apply(s, Take), s.channel[0], vs);
    StepKeepsInv(s, Take);
    RunKeepsInv(Apply(s, Take), FinishEvents(s.channel[0], vs));
  }

  lemma {:induction false} GoesThere(batch: seq<Req>, vs: seq<Verdict>, p: Place, r: Req)
    requires |vs| == |batch|
    ensures r in Going(batch, vs, p) <==> exists i :: 0 <= i < |batch| && batch[i] == r && PlaceOf(vs[i]) == p
    decreases batch
  {
    if batch != [] {
      GoesThere(batch[1..], vs[1..], p, r);
      assert forall i :: 0 <= i < |batch| - 1 ==> batch[1..][i] == batch[i + 1] && vs[1..][i] == vs[i + 1];
      if r in Going(batch[1..], vs[1..], p) {
        var i :| 0 <= i < |batch| - 1 && batch[1..][i] == r && PlaceOf(vs[1..][i]) == p;
        assert batch[i + 1] == r && PlaceOf(vs[i + 1]) == p;
      }
      if i :| 0 < i < |batch| && batch[i] == r && PlaceOf(vs[i]) == p {
        assert batch[1..][i - 1] == r && PlaceOf(vs[1..][i - 1]) == p;
      }
    }
  }

  // ----- inbound -----

  ghost function InboundVerdict(items: seq<MintBatch.Item>, a: InboundBatch.Answers, p: nat): Verdict
    requires |a.existing| == |items| && p < |items|
  {
    match InboundBatch.FateOf(items, a, p)
    case Settled => Settle
    case Held => PutOnHold
    case Lost =>
      if !a.dial || a.Verdict(items[p].hash) == InboundBatch.DialFailed then LetGo(ConnectionFailed) else LetGo(SharedHash)
  }

  ghost function InboundVerdicts(items: seq<MintBatch.Item>, a: InboundBatch.Answers): (vs: seq<Verdict>)
    requires |a.existing| == |items|
    ensures |vs| == |items| && forall i :: 0 <= i < |vs| ==> vs[i] == InboundVerdict(items, a, i)
  {
    seq(|items|, i requires 0 <= i < |items| => InboundVerdict(items, a, i))
  }

  /** processInbound on a batch of the books, whose items are items: every item is finished once, and it
      is dropped exactly when a connection failed or a later item stands for its hash. */
  lemma InboundOutcome(s: State, batch: seq<Req>, items: seq<MintBatch.Item>, a: InboundBatch.Answers)
    requires s.inbound && s.running && multiset(batch) <= s.working
    requires |batch| == |items| == |a.existing|
    ensures var vs := InboundVerdicts(items, a);
            && ValidRun(s, FinishEvents(batch, vs)) && After(s, FinishEvents(batch, vs)) == Finished(s, batch, vs)
    ensures var vs := InboundVerdicts(items, a);
            forall i :: 0 <= i < |batch| ==> (PlaceOf(vs[i]) == ToDropped <==> InboundBatch.Leaves(items, a, i))
  {
    FinishBatch(s, batch, InboundVerdicts(items, a));
    DroppedAll(items, a);
  }

  lemma DroppedAll(items: seq<MintBatch.Item>, a: InboundBatch.Answers)
    requires |a.existing| == |items|
    ensures var vs := InboundVerdicts(items, a);
            forall i :: 0 <= i < |items| ==> (PlaceOf(vs[i]) == ToDropped <==> InboundBatch.Leaves(items, a, i))
  {
    forall i | 0 <= i < |items|
      ensures PlaceOf(InboundVerdicts(items, a)[i]) == ToDropped <==> InboundBatch.Leaves(items, a, i)
    {
      DroppedIff(items, a, i);
    }
  }

  lemma DroppedIff(items: seq<MintBatch.Item>, a: InboundBatch.Answers, i: nat)
    requires |a.existing| == |items| && i < |items|
    ensures PlaceOf(InboundVerdict(items, a, i)) == ToDropped <==> InboundBatch.Leaves(items, a, i)
  {
    InboundBatch.LostIff(items, a, i);
    assert PlaceOf(InboundVerdict(items, a, i)) == ToDropped <==> InboundBatch.FateOf(items, a, i) == InboundBatch.Lost;
  }

  /** A call of processInbound and the steps of the books it stands for: the requests that go on hold are
      those of the items it puts on hold, and the dropped ones are neither there nor known to the chain. */
  method WorkOffInbound(ghost s: State, ghost batch: seq<Req>, items: seq<MintBatch.Item>, a: InboundBatch.Answers)
    returns (onHold: seq<MintBatch.Item>, ghost vs: seq<Verdict>)
    requires s.inbound && s.running && multiset(batch) <= s.working
    requires NoDup(items) && |batch| == |items| == |a.existing|
    ensures NoDup(onHold) && forall x :: x in onHold ==> x in items
    ensures |vs| == |batch| && ValidRun(s, FinishEvents(batch, vs)) && After(s, FinishEvents(batch, vs)) == Finished(s, batch, vs)
    ensures forall i :: 0 <= i < |batch| ==> (PlaceOf(vs[i]) == ToHold <==> items[i] in onHold)
    ensures forall i :: 0 <= i < |batch| ==>
      (PlaceOf(vs[i]) == ToDropped <==> items[i] !in onHold && Unknown(items, a, i))
  {
    onHold := InboundBatch.ProcessInbound(items, a);
    vs := InboundVerdicts(items, a);
    forall p | 0 <= p < |items|
      ensures items[p] in onHold <==> InboundBatch.FateOf(items, a, p) == InboundBatch.Held
    {
      InboundBatch.HeldFate(items, a, p);
    }
    InboundPlaces(items, a, onHold);
    FinishBatch(s, batch, vs);
  }

  lemma InboundPlaces(items: seq<MintBatch.Item>, a: InboundBatch.Answers, onHold: seq<MintBatch.Item>)
    requires |a.existing| == |items|
    requires forall p :: 0 <= p < |items| ==> (items[p] in onHold <==> InboundBatch.FateOf(items, a, p) == InboundBatch.Held)
    ensures var vs := InboundVerdicts(items, a);
            && (forall i :: 0 <= i < |vs| ==> (PlaceOf(vs[i]) == ToHold <==> items[i] in onHold))
            && (forall i :: 0 <= i < |vs| ==> (PlaceOf(vs[i]) == ToDropped <==> items[i] !in onHold && Unknown(items, a, i)))
  {
    var vs := InboundVerdicts(items, a);
    forall i | 0 <= i < |vs|
      ensures PlaceOf(vs[i]) == ToHold <==> items[i] in onHold
      ensures PlaceOf(vs[i]) == ToDropped <==> items[i] !in onHold && Unknown(items, a, i)
    {
      PlaceIff(items, a, i);
    }
  }

  /** The chain has not reported the item as submitted. */
  ghost predicate Unknown(items: seq<MintBatch.Item>, a: InboundBatch.Answers, i: nat)
    requires |a.existing| == |items| && i < |items|
  {
    a.dial ==> !InboundBatch.Known(items, a, items[i].hash)
  }

  lemma PlaceIff(items: seq<MintBatch.Item>, a: InboundBatch.Answers, i: nat)
    requires |a.existing| == |items| && i < |items|
    ensures PlaceOf(InboundVerdict(items, a, i)) == ToHold <==> InboundBatch.FateOf(items, a, i) == InboundBatch.Held
    ensures PlaceOf(InboundVerdict(items, a, i)) == ToDropped
            <==> InboundBatch.FateOf(items, a, i) != InboundBatch.Held && Unknown(items, a, i)
  {
    DroppedIff(items, a, i);
    InboundBatch.LeavesIff(items, a, i);
  }

  // ----- outbound -----

  /** order lists the positions of the batch that the first pass left to be sent, in the order in which
      its goroutines appended them: the worker with index k sends item order[k]. */
  ghost predicate IsOrder(ds: seq<OutboundBatch.Disposition>, order: seq<nat>) {
    && NoDup(order)
    && forall i: nat :: i in order <==> i < |ds| && ds[i] == OutboundBatch.Process
  }

  /** A finished signing round over n items to be sent; without any, there is none. */
  ghost predicate IsRound(n: nat, hashes: seq<string>, events: seq<Rendezvous.Event>) {
    && |hashes| == n && Rendezvous.ValidRun(Rendezvous.Init(hashes), events)
    && if n == 0 then events == [] else Rendezvous.Final(Rendezvous.After(Rendezvous.Init(hashes), events))
  }

  /** Each worker of a round either confirmed its item or put it on hold. */
  lemma RoundSplits(n: nat, hashes: seq<string>, events: seq<Rendezvous.Event>, k: nat)
    requires IsRound(n, hashes, events) && k < n
    ensures Rendezvous.Confirm(k) in events <==> Rendezvous.Hold(k) !in events
  {
    var r := Rendezvous.After(Rendezvous.Init(hashes), events);
    Rendezvous.EachItemEndsOnce(hashes, events);
    Rendezvous.BooksOfARound(hashes, events, k);
    assert k in Below(n);
    assert k in Elems(r.confirmed) <==> k in r.confirmed;
    assert k in Elems(r.held) <==> k in r.held;
  }

  /** The worker that sends item i saw its status check succeed. */
  ghost predicate ConfirmedAt(order: seq<nat>, events: seq<Rendezvous.Event>, i: nat) {
    exists k :: 0 <= k < |order| && order[k] == i && Rendezvous.Confirm(k) in events
  }

  /** The worker that sends item i put it on hold. */
  ghost predicate HeldAt(order: seq<nat>, events: seq<Rendezvous.Event>, i: nat) {
    exists k :: 0 <= k < |order| && order[k] == i && Rendezvous.Hold(k) in events
  }

  ghost function OutboundVerdict(ds: seq<OutboundBatch.Disposition>, order: seq<nat>, events: seq<Rendezvous.Event>, i: nat): Verdict
    requires i < |ds|
  {
    match ds[i]
    case Settled => Settle
    case Lost => LetGo(EmptyRecord)
    case Process => if ConfirmedAt(order, events, i) then Settle else PutOnHold
  }

  ghost function OutboundVerdicts(ds: seq<OutboundBatch.Disposition>, order: seq<nat>, events: seq<Rendezvous.Event>): (vs: seq<Verdict>)
    ensures |vs| == |ds| && forall i :: 0 <= i < |vs| ==> vs[i] == OutboundVerdict(ds, order, events, i)
  {
    seq(|ds|, i requires 0 <= i < |ds| => OutboundVerdict(ds, order, events, i))
  }

  /** An item goes on hold exactly when its worker put it there; it is settled exactly when it was before,
      or its worker saw the transaction succeed. */
  lemma HeldIff(ds: seq<OutboundBatch.Disposition>, order: seq<nat>, hashes: seq<string>, events: seq<Rendezvous.Event>, i: nat)
    requires IsOrder(ds, order) && IsRound(|order|, hashes, events) && i < |ds|
    ensures PlaceOf(OutboundVerdict(ds, order, events, i)) == ToHold <==> HeldAt(order, events, i)
    ensures PlaceOf(OutboundVerdict(ds, order, events, i)) == ToChain
            <==> ds[i] == OutboundBatch.Settled || ConfirmedAt(order, events, i)
  {
    if i in order {
      var k :| 0 <= k < |order| && order[k] == i;
      RoundSplits(|order|, hashes, events, k);
      assert forall c :: 0 <= c < |order| && order[c] == i ==> c == k;
      assert HeldAt(order, events, i) <==> Rendezvous.Hold(k) in events;
      assert ConfirmedAt(order, events, i) <==> Rendezvous.Confirm(k) in events;
    } else {
      assert forall c :: 0 <= c < |order| ==> order[c] in order;
    }
  }

  /** An item is dropped exactly when its record exists and nothing in the record has a quorum. */
  lemma LetGoIff(item: OutboundBatch.Item, validators: nat, confirmed: set<string>,
                 ds: seq<OutboundBatch.Disposition>, order: seq<nat>, events: seq<Rendezvous.Event>, i: nat)
    requires i < |ds| && OutboundBatch.Named(item) && OutboundBatch.Possible(item, validators, confirmed, ds[i])
    ensures PlaceOf(OutboundVerdict(ds, order, events, i)) == ToDropped <==> BelowQuorum(item, validators)
  {
    OutboundBatch.LostIffBelowQuorum(item, validators, confirmed, ds[i]);
    assert PlaceOf(OutboundVerdict(ds, order, events, i)) == ToDropped <==> ds[i] == OutboundBatch.Lost;
  }

  ghost predicate BelowQuorum(item: OutboundBatch.Item, validators: nat) {
    item.record.Recorded? && forall tx :: !Quorum.Reaches(item.record.entries, validators, tx)
  }

  lemma HeldPositions(ds: seq<OutboundBatch.Disposition>, order: seq<nat>, hashes: seq<string>, events: seq<Rendezvous.Event>)
    requires IsOrder(ds, order) && IsRound(|order|, hashes, events)
    ensures forall i :: 0 <= i < |ds| ==>
      (PlaceOf(OutboundVerdict(ds, order, events, i)) == ToHold <==> HeldAt(order, events, i))
    ensures forall i :: 0 <= i < |ds| ==>
      (PlaceOf(OutboundVerdict(ds, order, events, i)) == ToChain <==> Paid(ds, order, events, i))
  {
    forall i | 0 <= i < |ds|
      ensures PlaceOf(OutboundVerdict(ds, order, events, i)) == ToHold <==> HeldAt(order, events, i)
      ensures PlaceOf(OutboundVerdict(ds, order, events, i)) == ToChain <==> Paid(ds, order, events, i)
    {
      HeldIff(ds, order, hashes, events, i);
    }
  }

  /** The public chain has confirmed a payout of item i. */
  ghost predicate Paid(ds: seq<OutboundBatch.Disposition>, order: seq<nat>, events: seq<Rendezvous.Event>, i: nat)
    requires i < |ds|
  {
    ds[i] == OutboundBatch.Settled || ConfirmedAt(order, events, i)
  }

  lemma DroppedPositions(items: seq<OutboundBatch.Item>, validators: nat, confirmed: set<string>,
                         ds: seq<OutboundBatch.Disposition>, order: seq<nat>, events: seq<Rendezvous.Event>)
    requires |items| == |ds|
    requires forall i :: 0 <= i < |items| ==> OutboundBatch.Possible(items[i], validators, confirmed, ds[i])
    ensures forall i :: 0 <= i < |items| && OutboundBatch.Named(items[i]) ==>
      (PlaceOf(OutboundVerdict(ds, order, events, i)) == ToDropped <==> BelowQuorum(items[i], validators))
  {
    forall i | 0 <= i < |items| && OutboundBatch.Named(items[i])
      ensures PlaceOf(OutboundVerdict(ds, order, events, i)) == ToDropped <==> BelowQuorum(items[i], validators)
    {
      LetGoIff(items[i], validators, confirmed, ds, order, events, i);
    }
  }

  /** processEachOutBound on a batch of the books, first pass and signing round together: every item is
      finished once; it goes on hold exactly when its worker put it there, it is settled exactly when a
      transaction of its record or of its worker was confirmed, and it is dropped exactly when its
      record exists and nothing in the record has a quorum. */
  lemma OutboundOutcome(s: State, batch: seq<Req>, items: seq<OutboundBatch.Item>, validators: nat, confirmed: set<string>,
                        ds: seq<OutboundBatch.Disposition>, order: seq<nat>, hashes: seq<string>, events: seq<Rendezvous.Event>)
    requires !s.inbound && s.running && multiset(batch) <= s.working
    requires |batch| == |items| == |ds| && IsOrder(ds, order) && IsRound(|order|, hashes, events)
    requires forall i :: 0 <= i < |items| ==> OutboundBatch.Possible(items[i], validators, confirmed, ds[i])
    ensures var vs := OutboundVerdicts(ds, order, events);
            && ValidRun(s, FinishEvents(batch, vs)) && After(s, FinishEvents(batch, vs)) == Finished(s, batch, vs)
    ensures forall i :: 0 <= i < |batch| ==>
      (PlaceOf(OutboundVerdict(ds, order, events, i)) == ToHold <==> HeldAt(order, events, i))
    ensures forall i :: 0 <= i < |batch| ==>
      (PlaceOf(OutboundVerdict(ds, order, events, i)) == ToChain <==> Paid(ds, order, events, i))
    ensures forall i :: 0 <= i < |batch| && OutboundBatch.Named(items[i]) ==>
      (PlaceOf(OutboundVerdict(ds, order, events, i)) == ToDropped <==> BelowQuorum(items[i], validators))
  {
    FinishBatch(s, batch, OutboundVerdicts(ds, order, events));
    HeldPositions(ds, order, hashes, events);
    DroppedPositions(items, validators, confirmed, ds, order, events);
  }
}
