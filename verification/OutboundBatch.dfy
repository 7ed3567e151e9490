/** The first pass of processEachOutBound (bridge/bridge_service.go) over a popped batch: which items
    are still to be sent, and where one of them leaves the books. */
module OutboundBatch {
  import opened Common
  import opened Quorum

  /** The outbound record of a request on the Joltify chain. */
  datatype Record = Missing | Recorded(entries: map<string, seq<nat>>)

  datatype Disposition = Process | Settled | Lost

  datatype Item = Item(uid: nat, record: Record)

  ghost predicate Quorate(item: Item, validators: nat, tx: string) {
    item.record.Recorded? && Reaches(item.record.entries, validators, tx)
  }

  /** d is a possible disposition of the item, over all orders of iteration over its record. confirmed
      holds the transactions the public chain confirms. */
  ghost predicate Possible(item: Item, validators: nat, confirmed: set<string>, d: Disposition) {
    match d
    case Process => item.record.Missing? || exists tx :: tx != "" && tx !in confirmed && Quorate(item, validators, tx)
    case Settled => exists tx :: tx != "" && tx in confirmed && Quorate(item, validators, tx)
    case Lost => item.record.Recorded? && (Quorate(item, validators, "") || forall tx :: !Quorate(item, validators, tx))
  }

  /** One goroutine of the first pass. */
  method Check(each: Item, validators: nat, confirmed: set<string>) returns (d: Disposition)
    ensures Possible(each, validators, confirmed, d)
  {
    if each.record.Missing? {
      return Process;
    }
    var submittedTx := GetPubChainSubmittedTx(each.record.entries, validators);
    if submittedTx != "" {
      if submittedTx in confirmed {
        return Settled;
      }
      return Process;
    }
    assert forall tx :: Quorate(each, validators, tx) <==> Reaches(each.record.entries, validators, tx);
    return Lost;
  }

  /** The items that were given disposition d, in order. */
  function With(items: seq<Option<Item>>, ds: seq<Disposition>, d: Disposition): seq<Item>
    requires |ds| == |items|
  {
    if items == [] then []
    else
      var last := items[|items| - 1];
      With(items[..|items| - 1], ds[..|items| - 1], d)
      + (if last.Some? && ds[|items| - 1] == d then [last.value] else [])
  }

  lemma WithNext(items: seq<Option<Item>>, ds: seq<Disposition>, i: nat, e: Disposition, d: Disposition)
    requires i < |items| && |ds| == i
    ensures With(items[..i + 1], ds + [e], d)
            == With(items[..i], ds, d) + (if items[i].Some? && e == d then [items[i].value] else [])
  {
    assert items[..i + 1][..i] == items[..i] && (ds + [e])[..i] == ds;
  }

  /** The first pass. The goroutines append in any order; here the items are visited one by one. A nil
      item is skipped. ds is what each of them came to. */
  method Precheck(items: seq<Option<Item>>, validators: nat, confirmed: set<string>)
    returns (needToBeProcessed: seq<Item>, ghost ds: seq<Disposition>)
    ensures |ds| == |items| && multiset(needToBeProcessed) == multiset(With(items, ds, Process))
    ensures forall i :: 0 <= i < |items| && items[i].Some? ==> Possible(items[i].value, validators, confirmed, ds[i])
    ensures forall x :: x in needToBeProcessed ==> Some(x) in items && Possible(x, validators, confirmed, Process)
    ensures forall x :: Some(x) in items && !Possible(x, validators, confirmed, Settled) && !Possible(x, validators, confirmed, Lost)
                        ==> x in needToBeProcessed
  {
    needToBeProcessed, ds := [], [];
    for i := 0 to |items|
      invariant |ds| == i && needToBeProcessed == With(items[..i], ds, Process)
      invariant forall j :: 0 <= j < i && items[j].Some? ==> Possible(items[j].value, validators, confirmed, ds[j])
    {
      var d := Lost;
      if items[i].Some? {
        d := Check(items[i].value, validators, confirmed);
        if d == Process {
          needToBeProcessed := needToBeProcessed + [items[i].value];
        }
      }
      WithNext(items, ds, i, d, Process);
      ds := ds + [d];
    }
    assert items[..|items|] == items;
    forall x: Item
      ensures x in needToBeProcessed <==> exists i :: 0 <= i < |items| && items[i] == Some(x) && ds[i] == Process
    {
      InWith(items, ds, Process, x);
    }
  }

  lemma {:induction false} InWith(items: seq<Option<Item>>, ds: seq<Disposition>, d: Disposition, x: Item)
    requires |ds| == |items|
    ensures x in With(items, ds, d) <==> exists i :: 0 <= i < |items| && items[i] == Some(x) && ds[i] == d
  {
    if items != [] {
      var n := |items| - 1;
      InWith(items[..n], ds[..n], d, x);
      assert forall i :: 0 <= i < n ==> items[..n][i] == items[i] && ds[..n][i] == ds[i];
    }
  }

  /** The records of the bridge never name the empty transaction. */
  predicate Named(item: Item) {
    item.record.Recorded? ==> "" !in item.record.entries
  }

  /** An item is let go, neither sent nor put on hold, exactly when validators have recorded transactions
      for its request and none of these has a quorum yet; and then it cannot come to anything else. */
  lemma LostIffBelowQuorum(item: Item, validators: nat, confirmed: set<string>, d: Disposition)
    requires Named(item) && Possible(item, validators, confirmed, d)
    ensures d == Lost <==> item.record.Recorded? && forall tx :: !Reaches(item.record.entries, validators, tx)
  {
    assert item.record.Recorded? ==> forall tx :: Quorate(item, validators, tx) <==> Reaches(item.record.entries, validators, tx);
  }

  /** With a decisive number of validators the disposition of an item is the same on every node that
      sees its record, whatever the order of iteration. */
  lemma DispositionAgrees(item: Item, validators: nat, confirmed: set<string>, d: Disposition, e: Disposition)
    requires Decisive(validators) && Named(item)
    requires item.record.Recorded? ==> HonestRecord(item.record.entries, validators)
    requires Possible(item, validators, confirmed, d) && Possible(item, validators, confirmed, e)
    ensures d == e
  {
    UniqueIff(validators);
    LostIffBelowQuorum(item, validators, confirmed, d);
    LostIffBelowQuorum(item, validators, confirmed, e);
  }

  /** Without it, it is not: two nodes that see one record of a fair vote, one confirmed transaction and
      one that is not, can settle the item and send it again. */
  lemma DispositionsDiffer(validators: nat) returns (item: Item)
    requires !Decisive(validators)
    ensures Named(item) && item.record.Recorded? && HonestRecord(item.record.entries, validators)
    ensures Possible(item, validators, {"a"}, Settled) && Possible(item, validators, {"a"}, Process)
  {
    var entries := Ambiguous(validators);
    item := Item(0, Recorded(map tx | tx in entries && tx in {"a", "b"} :: entries[tx]));
    assert "a"[0] != "b"[0];
    assert Quorate(item, validators, "a") && Quorate(item, validators, "b");
  }

  /** Two nodes come to d and e on one honest record. */
  ghost predicate Dispute(item: Item, validators: nat, confirmed: set<string>, d: Disposition, e: Disposition) {
    && Named(item) && (item.record.Recorded? ==> HonestRecord(item.record.entries, validators))
    && Possible(item, validators, confirmed, d) && Possible(item, validators, confirmed, e)
  }

  /** All nodes dispose of every honest record alike exactly unless there are 2 or 4 validators. */
  lemma AgreementIff(validators: nat)
    ensures (forall item, confirmed, d, e :: Dispute(item, validators, confirmed, d, e) ==> d == e) <==> Decisive(validators)
  {
    if Decisive(validators) {
      forall item, confirmed, d, e | Dispute(item, validators, confirmed, d, e)
        ensures d == e
      {
        DispositionAgrees(item, validators, confirmed, d, e);
      }
    } else {
      var item := DispositionsDiffer(validators);
      assert Dispute(item, validators, {"a"}, Settled, Process);
    }
  }
}
