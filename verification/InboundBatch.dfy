/** What processInbound (bridge/bridge_service.go) does with a popped inbound batch, and where one of
    its items can leave the books. */
module InboundBatch {
  import opened Common
  import opened MintBatch

  /** The end of the status check of one hash. */
  datatype Verdict = Found | NotFound | DialFailed

  datatype Fate = Settled | Held | Lost

  /** The answers of the chain: connection, "already submitted" per item, whether minting could be
      attempted, and the hashes that were found, or could not be asked for, in the end. */
  datatype Answers = Answers(dial: bool, existing: seq<bool>, mint: bool, found: set<string>, unreachable: set<string>) {
    function Verdict(h: string): Verdict {
      if h in unreachable then DialFailed else if h in found then Found else NotFound
    }
  }

  /** Some item of that hash was still to be minted. */
  ghost predicate Needed(items: seq<Item>, a: Answers, h: string)
    requires |a.existing| == |items|
  {
    exists p :: 0 <= p < |items| && !a.existing[p] && items[p].hash == h
  }

  ghost predicate AllExist(items: seq<Item>, a: Answers)
    requires |a.existing| == |items|
  {
    forall p :: 0 <= p < |items| ==> a.existing[p]
  }

  /** The chain has reported that hash as submitted. */
  ghost predicate Known(items: seq<Item>, a: Answers, h: string)
    requires |a.existing| == |items|
  {
    || (exists p :: 0 <= p < |items| && a.existing[p] && items[p].hash == h)
    || (a.mint && Needed(items, a, h) && a.Verdict(h) == Found)
  }

  ghost function FateOf(items: seq<Item>, a: Answers, p: nat): Fate
    requires |a.existing| == |items| && p < |items|
  {
    if !a.dial then Lost
    else if AllExist(items, a) then Settled
    else if !a.mint then Held
    else if Needed(items, a, items[p].hash) && a.Verdict(items[p].hash) == NotFound && LastOfHash(items, p) then Held
    else if Known(items, a, items[p].hash) then Settled
    else Lost
  }

  /** The items to be put on hold: all of them when minting could not be tried; otherwise the last one of
      each hash that was to be minted, and that the chain was asked for and did not have in the end. */
  ghost predicate ToHold(items: seq<Item>, a: Answers, p: nat)
    requires |a.existing| == |items| && p < |items|
  {
    && a.dial && !AllExist(items, a)
    && (!a.mint || (Needed(items, a, items[p].hash) && items[p].hash !in a.found && items[p].hash !in a.unreachable
                    && LastOfHash(items, p)))
  }

  /** What is put on hold, each item once; and what is neither there nor known to the chain. */
  method ProcessInbound(items: seq<Item>, a: Answers) returns (onHold: seq<Item>)
    requires NoDup(items) && |a.existing| == |items|
    ensures NoDup(onHold)
    ensures forall x :: x in onHold ==> x in items
    ensures forall p :: 0 <= p < |items| ==> (items[p] in onHold <==> ToHold(items, a, p))
    ensures forall p :: 0 <= p < |items| ==>
      (items[p] !in onHold && (a.dial ==> !Known(items, a, items[p].hash)) <==> Leaves(items, a, p))
  {
    onHold := HoldItems(items, a);
    forall p | 0 <= p < |items|
      ensures items[p] !in onHold && (a.dial ==> !Known(items, a, items[p].hash)) <==> Leaves(items, a, p)
    {
      LeavesIff(items, a, p);
      HeldFate(items, a, p);
    }
  }

  method HoldItems(items: seq<Item>, a: Answers) returns (onHold: seq<Item>)
    requires NoDup(items) && |a.existing| == |items|
    ensures NoDup(onHold)
    ensures forall x :: x in onHold ==> x in items
    ensures forall p :: 0 <= p < |items| ==> (items[p] in onHold <==> ToHold(items, a, p))
  {
    onHold := [];
    if !a.dial {
      return;
    }
    var itemsMap := IndexByHash(items);
    var needed := FilterExisting(items, a);
    if needed == {} {
      return;
    }
    if !a.mint {
      onHold := items;
      return;
    }
    onHold := CheckEach(items, a, itemsMap, needed);
    CheckedIsHeld(items, a, itemsMap, needed, onHold);
  }

  lemma CheckedIsHeld(items: seq<Item>, a: Answers, itemsMap: map<string, Item>, needed: set<string>, onHold: seq<Item>)
    requires NoDup(items) && |a.existing| == |items| && a.dial && a.mint && !AllExist(items, a)
    requires needed <= itemsMap.Keys && forall h :: h in needed <==> Needed(items, a, h)
    requires forall h :: h in itemsMap ==> itemsMap[h] in items && itemsMap[h].hash == h
    requires forall q :: 0 <= q < |items| ==> items[q].hash in itemsMap
    requires forall q :: 0 <= q < |items| && LastOfHash(items, q) ==> itemsMap[items[q].hash] == items[q]
    requires forall x :: x in onHold <==> x.hash in needed && a.Verdict(x.hash) == NotFound && itemsMap[x.hash] == x
    ensures forall p :: 0 <= p < |items| ==> (items[p] in onHold <==> ToHold(items, a, p))
  {
    forall p | 0 <= p < |items|
      ensures items[p] in onHold <==> ToHold(items, a, p)
    {
      HeldIsLast(items, itemsMap, p);
      OneHeld(items, a, p);
    }
  }

  lemma OneHeld(items: seq<Item>, a: Answers, p: nat)
    requires |a.existing| == |items| && p < |items| && a.dial && a.mint && !AllExist(items, a)
    ensures ToHold(items, a, p)
            <==> Needed(items, a, items[p].hash) && a.Verdict(items[p].hash) == NotFound && LastOfHash(items, p)
  {
  }

  lemma HeldFate(items: seq<Item>, a: Answers, p: nat)
    requires |a.existing| == |items| && p < |items|
    ensures FateOf(items, a, p) == Held <==> ToHold(items, a, p)
  {
  }

  /** The hashes of the items that the chain does not have yet. */
  method FilterExisting(items: seq<Item>, a: Answers) returns (needed: set<string>)
    requires |a.existing| == |items|
    ensures forall h :: h in needed <==> Needed(items, a, h)
    ensures needed == {} <==> AllExist(items, a)
  {
    needed := {};
    for i := 0 to |items|
      invariant forall h :: h in needed <==> exists p :: 0 <= p < i && !a.existing[p] && items[p].hash == h
    {
      if !a.existing[i] {
        needed := needed + {items[i].hash};
      }
    }
    assert forall p :: 0 <= p < |items| && !a.existing[p] ==> items[p].hash in needed;
  }

  /** itemsMap: the last item of each hash. */
  method IndexByHash(items: seq<Item>) returns (itemsMap: map<string, Item>)
    ensures forall h :: h in itemsMap ==> itemsMap[h] in items && itemsMap[h].hash == h
    ensures forall p :: 0 <= p < |items| ==> items[p].hash in itemsMap
    ensures forall p :: 0 <= p < |items| && LastOfHash(items, p) ==> itemsMap[items[p].hash] == items[p]
  {
    itemsMap := map[];
    for i := 0 to |items|
      invariant forall h :: h in itemsMap ==> itemsMap[h] in items && itemsMap[h].hash == h
      invariant forall p :: 0 <= p < i ==> items[p].hash in itemsMap
      invariant forall p :: 0 <= p < i && (forall q :: p < q < i ==> items[q].hash != items[p].hash)
                            ==> itemsMap[items[p].hash] == items[p]
    {
      itemsMap := itemsMap[items[i].hash := items[i]];
    }
  }

  /** One status check per reported hash, in any order. */
  method CheckEach(items: seq<Item>, a: Answers, itemsMap: map<string, Item>, needed: set<string>) returns (onHold: seq<Item>)
    requires needed <= itemsMap.Keys
    requires forall h :: h in itemsMap ==> itemsMap[h] in items && itemsMap[h].hash == h
    ensures NoDup(onHold)
    ensures forall x :: x in onHold <==> x.hash in needed && a.Verdict(x.hash) == NotFound && itemsMap[x.hash] == x
  {
    onHold := [];
    var rest := needed;
    while rest != {}
      invariant rest <= needed && NoDup(onHold)
      invariant forall x :: x in onHold <==>
        x.hash in needed && x.hash !in rest && a.Verdict(x.hash) == NotFound && itemsMap[x.hash] == x
    {
      var h :| h in rest;
      rest := rest - {h};
      if a.Verdict(h) == NotFound {
        assert itemsMap[h] !in onHold;
        onHold := onHold + [itemsMap[h]];
      }
    }
  }

  lemma HeldIsLast(items: seq<Item>, itemsMap: map<string, Item>, p: nat)
    requires NoDup(items) && p < |items|
    requires forall h :: h in itemsMap ==> itemsMap[h] in items && itemsMap[h].hash == h
    requires forall q :: 0 <= q < |items| ==> items[q].hash in itemsMap
    requires forall q :: 0 <= q < |items| && LastOfHash(items, q) ==> itemsMap[items[q].hash] == items[q]
    ensures itemsMap[items[p].hash] == items[p] <==> LastOfHash(items, p)
  {
    var h := items[p].hash;
    var q := LastIndex(items, h, p);
    assert itemsMap[h] == items[q];
    if p != q {
      assert items[p] != items[q];
    }
  }

  lemma {:induction false} LastIndex(items: seq<Item>, h: string, p: nat) returns (q: nat)
    requires p < |items| && items[p].hash == h
    ensures p <= q < |items| && items[q].hash == h && LastOfHash(items, q)
    decreases |items| - p
  {
    if LastOfHash(items, p) {
      q := p;
    } else {
      var r: nat :| p < r < |items| && items[r].hash == items[p].hash;
      q := LastIndex(items, h, r);
    }
  }

  /** A connection failed, or the hash was not found and a later item stands for it. */
  ghost predicate Leaves(items: seq<Item>, a: Answers, p: nat)
    requires |a.existing| == |items| && p < |items|
  {
    || !a.dial
    || (a.mint && !a.existing[p] && !Known(items, a, items[p].hash)
        && (a.Verdict(items[p].hash) == DialFailed || !LastOfHash(items, p)))
  }

  lemma LeavesIff(items: seq<Item>, a: Answers, p: nat)
    requires |a.existing| == |items| && p < |items|
    ensures FateOf(items, a, p) != Held && (a.dial ==> !Known(items, a, items[p].hash)) <==> Leaves(items, a, p)
  {
    if a.existing[p] {
      assert Known(items, a, items[p].hash);
    } else {
      assert Needed(items, a, items[p].hash);
    }
  }

  /** An item leaves the books, neither on hold nor known to the chain, exactly when a connection
      failed, or when its hash was not found and a later item of the batch has the same hash. */
  lemma LostIff(items: seq<Item>, a: Answers, p: nat)
    requires |a.existing| == |items| && p < |items|
    ensures FateOf(items, a, p) == Lost <==> Leaves(items, a, p)
  {
    if a.existing[p] {
      assert Known(items, a, items[p].hash);
    } else {
      assert Needed(items, a, items[p].hash);
    }
  }

  /** With distinct hashes only failed connections lose an item. */
  lemma DistinctHashesLoseOnlyOnDial(items: seq<Item>, a: Answers, p: nat)
    requires |a.existing| == |items| && p < |items|
    requires forall i, j :: 0 <= i < j < |items| ==> items[i].hash != items[j].hash
    ensures FateOf(items, a, p) == Lost
            <==> !a.dial || (a.mint && !a.existing[p] && a.Verdict(items[p].hash) == DialFailed)
  {
    LostIff(items, a, p);
    if !a.existing[p] {
      forall q | 0 <= q < |items| && items[q].hash == items[p].hash
        ensures q == p
      {
      }
    }
  }
}
