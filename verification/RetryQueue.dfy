/** The retry maps and on-hold queues of both directions (cosbridge/oppy_item_process.go,
    pubchain/public_items_process.go) and the requests they hold (common/requests_queue.go).
    Byte strings are modelled as strings; Keccak is a function parameter of a request. */
module RetryQueue {
  import opened Common
  import opened DecimalKeys
  import opened BatchOrder
  import opened KeyedStore

  /** A payout request toward a public chain. */
  class OutBoundReq {
    const keccak: string -> nat
    var txID: string
    var receiver: string
    var fromPoolAddr: string
    var amount: int
    var blockHeight: int
    var nonce: int
    var submittedTxHash: string
    var chainType: string
    var needMint: bool

    constructor (keccak: string -> nat, txID: string, receiver: string, fromPoolAddr: string, amount: int,
                 blockHeight: int, emptyHash: string, chainType: string, needMint: bool)
      ensures Index() == Key(blockHeight, keccak(receiver + txID))
      ensures Hash() == keccak(receiver + chainType + (if needMint then "true" else "false") + txID)
      ensures this.chainType == chainType && this.nonce == 0 && this.submittedTxHash == emptyHash
      ensures this.amount == amount && this.fromPoolAddr == fromPoolAddr && this.needMint == needMint
    {
      this.keccak := keccak;
      this.txID, this.receiver, this.fromPoolAddr := txID, receiver, fromPoolAddr;
      this.amount, this.blockHeight, this.nonce := amount, blockHeight, 0;
      this.submittedTxHash, this.chainType, this.needMint := emptyHash, chainType, needMint;
    }

    function Index(): string
      reads this
    {
      Key(blockHeight, keccak(receiver + txID))
    }

    function Hash(): nat
      reads this
    {
      keccak(receiver + chainType + (if needMint then "true" else "false") + txID)
    }

    /** Assigning a nonce leaves both identities of the request alone. */
    method SetItemNonce(fromPoolAddr: string, nonce: int)
      modifies this`fromPoolAddr, this`nonce
      ensures this.fromPoolAddr == fromPoolAddr && this.nonce == nonce
      ensures Index() == old(Index()) && Hash() == old(Hash())
    {
      this.fromPoolAddr := fromPoolAddr;
      this.nonce := nonce;
    }

    /** What a failed worker does to its item before putting it on hold. */
    method RecordSubmitted(txHash: string)
      modifies this`submittedTxHash
      ensures submittedTxHash == txHash
      ensures Index() == old(Index()) && Hash() == old(Hash())
    {
      submittedTxHash := txHash;
    }
  }

  /** A mint request toward the Joltify chain. */
  class InBoundReq {
    const keccak: string -> nat
    var userReceiver: string
    var txID: string
    var toPoolAddr: string
    var amount: int
    var blockHeight: int
    var accNum: int
    var accSeq: int
    var poolCosAddress: string
    var poolPk: string

    constructor (keccak: string -> nat, userReceiver: string, toPoolAddr: string, amount: int, txID: string, blockHeight: int)
      ensures Hash() == keccak(userReceiver + txID) && Index() == Key(blockHeight, Hash())
      ensures accNum == 0 && accSeq == 0 && this.amount == amount && this.toPoolAddr == toPoolAddr
    {
      this.keccak := keccak;
      this.userReceiver, this.txID, this.toPoolAddr := userReceiver, txID, toPoolAddr;
      this.amount, this.blockHeight, this.accNum, this.accSeq := amount, blockHeight, 0, 0;
      this.poolCosAddress, this.poolPk := "", "";
    }

    function Hash(): nat
      reads this
    {
      keccak(userReceiver + txID)
    }

    function Index(): string
      reads this
    {
      Key(blockHeight, Hash())
    }

    method SetAccountInfo(number: int, sequence: int, address: string, pk: string)
      modifies this`accNum, this`accSeq, this`poolCosAddress, this`poolPk
      ensures accNum == number && accSeq == sequence && poolCosAddress == address && poolPk == pk
      ensures Index() == old(Index()) && Hash() == old(Hash())
    {
      accNum, accSeq, poolCosAddress, poolPk := number, sequence, address, pk;
    }
  }

  function OutKeyed(reqs: seq<OutBoundReq>): (s: seq<(string, OutBoundReq)>)
    reads reqs
    ensures |s| == |reqs| && forall i :: 0 <= i < |s| ==> s[i] == (reqs[i].Index(), reqs[i])
  {
    seq(|reqs|, i requires 0 <= i < |reqs| reads reqs => (reqs[i].Index(), reqs[i]))
  }

  /** The outbound retry map and on-hold queue. */
  class OutboundQueue {
    var items: map<string, OutBoundReq>
    var onHold: seq<OutBoundReq>

    constructor ()
      ensures Valid() && items == map[] && onHold == []
    {
      items, onHold := map[], [];
    }

    /** Every request is stored under its own index. */
    ghost predicate Valid()
      reads this, items.Values
    {
      forall k :: k in items ==> items[k].Index() == k
    }

    ghost function ChainKeys(chainType: string): set<string>
      reads this, items.Values
    {
      set k | k in items && items[k].chainType == chainType
    }

    method AddItem(req: OutBoundReq)
      requires Valid()
      modifies this`items
      ensures Valid() && items == old(items)[req.Index() := req]
    {
      items := items[req.Index() := req];
    }

    method AddOnHoldQueue(req: OutBoundReq)
      modifies this`onHold
      ensures onHold == old(onHold) + [req]
    {
      onHold := onHold + [req];
    }

    method DumpQueue() returns (dumped: seq<OutBoundReq>)
      modifies this`onHold
      ensures dumped == old(onHold) && onHold == []
    {
      if |onHold| == 0 {
        return [];
      }
      dumped := onHold;
      onHold := [];
    }

    /** Ranges over the map in any order. */
    method RangeKeys(chainType: string) returns (allkeys: seq<string>)
      ensures NoDup(allkeys) && Elems(allkeys) == ChainKeys(chainType)
    {
      allkeys := [];
      var rest := items.Keys;
      while rest != {}
        invariant rest <= items.Keys && NoDup(allkeys)
        invariant Elems(allkeys) == ChainKeys(chainType) - rest
      {
        var k :| k in rest;
        rest := rest - {k};
        if items[k].chainType == chainType {
          ElemsAppend(allkeys, k);
          allkeys := allkeys + [k];
        }
      }
    }

    method LoadAndDelete(keys: seq<string>) returns (reqs: seq<OutBoundReq>)
      requires NoDup(keys) && Elems(keys) <= items.Keys
      modifies this`items
      ensures |reqs| == |keys| && items == old(items) - Elems(keys)
      ensures forall i :: 0 <= i < |reqs| ==> keys[i] in old(items) && reqs[i] == old(items)[keys[i]]
    {
      reqs := [];
      for i := 0 to |keys|
        invariant |reqs| == i
        invariant items == old(items) - Elems(keys[..i])
        invariant forall j :: 0 <= j < i ==> keys[j] in old(items) && reqs[j] == old(items)[keys[j]]
      {
        TakeNext(keys, i);
        reqs := reqs + [items[keys[i]]];
        items := items - {keys[i]};
      }
      assert keys[..|keys|] == keys;
    }

    /** Takes the n smallest keys of one chain, in any order of iteration over the map. */
    method PopItem(n: nat, chainType: string) returns (reqs: seq<OutBoundReq>, ghost keys: seq<string>)
      requires Valid()
      modifies this`items
      ensures Valid()
      ensures IsBatch(old(ChainKeys(chainType)), n, keys) && |reqs| == |keys|
      ensures forall i :: 0 <= i < |reqs| ==>
        keys[i] in old(items) && reqs[i] == old(items)[keys[i]] && reqs[i].Index() == keys[i] && reqs[i].chainType == chainType
      ensures items == old(items) - Elems(keys)
    {
      var allkeys := RangeKeys(chainType);
      var sorted := SortKeys(allkeys);
      var taken := FirstOf(ChainKeys(chainType), allkeys, sorted, n);
      keys := taken;
      reqs := LoadAndDelete(taken);
    }

    /** Lists the map in any order. */
    method ExportItems() returns (exported: seq<OutBoundReq>)
      requires Valid()
      ensures Enumerates(OutKeyed(exported), items)
    {
      exported := [];
      ghost var keys: seq<string> := [];
      var rest := items.Keys;
      while rest != {}
        invariant rest <= items.Keys && NoDup(keys) && Elems(keys) == items.Keys - rest
        invariant |exported| == |keys| && forall i :: 0 <= i < |keys| ==> keys[i] in Elems(keys) && exported[i] == items[keys[i]]
      {
        var k :| k in rest;
        rest := rest - {k};
        ElemsAppend(keys, k);
        keys := keys + [k];
        exported := exported + [items[k]];
      }
      ListedIsEnumerated(keys, exported);
    }

    lemma ListedIsEnumerated(keys: seq<string>, exported: seq<OutBoundReq>)
      requires Valid() && NoDup(keys) && Elems(keys) == items.Keys && |exported| == |keys|
      requires forall i :: 0 <= i < |keys| ==> keys[i] in Elems(keys) && exported[i] == items[keys[i]]
      ensures Enumerates(OutKeyed(exported), items)
    {
      var s := OutKeyed(exported);
      assert forall i :: 0 <= i < |s| ==> s[i] == (keys[i], items[keys[i]]);
      forall k | k in items
        ensures exists p :: p in s && p.0 == k
      {
        assert k in Elems(keys);
        var i :| 0 <= i < |keys| && keys[i] == k;
        assert s[i] in s;
      }
    }

    /** Loading saved requests at start-up. */
    method LoadItems(reqs: seq<OutBoundReq>)
      requires Valid()
      modifies this`items
      ensures Valid() && items == StoreAll(old(items), OutKeyed(reqs))
    {
      for i := 0 to |reqs|
        invariant Valid() && items == StoreAll(old(items), OutKeyed(reqs)[..i])
      {
        AddItem(reqs[i]);
        assert OutKeyed(reqs)[..i + 1][..i] == OutKeyed(reqs)[..i];
      }
      assert OutKeyed(reqs)[..|reqs|] == OutKeyed(reqs);
    }

    /** Shutdown: the on-hold items go back to the map, and the map is exported. */
    method Shutdown() returns (exported: seq<OutBoundReq>)
      requires Valid()
      modifies this
      ensures Valid() && onHold == []
      ensures items == StoreAll(old(items), OutKeyed(old(onHold)))
      ensures Enumerates(OutKeyed(exported), items)
    {
      var dumped := DumpQueue();
      LoadItems(dumped);
      exported := ExportItems();
    }

    /** Start-up from a saved state: whatever order the items were exported in, the map of the
        stopped node is rebuilt. */
    method Restart(exported: seq<OutBoundReq>, ghost saved: map<string, OutBoundReq>)
      requires Valid() && items == map[] && Enumerates(OutKeyed(exported), saved)
      modifies this`items
      ensures Valid() && items == saved
    {
      LoadItems(exported);
      Rebuild(saved, OutKeyed(exported));
    }
  }

  /** The inbound retry map. Its on-hold queue works like the outbound one. */
  class InboundQueue {
    var items: map<string, InBoundReq>

    constructor ()
      ensures Valid() && items == map[]
    {
      items := map[];
    }

    ghost predicate Valid()
      reads this, items.Values
    {
      forall k :: k in items ==> items[k].Index() == k
    }

    method AddInBoundItem(req: InBoundReq)
      requires Valid()
      modifies this`items
      ensures Valid() && items == old(items)[req.Index() := req]
    {
      items := items[req.Index() := req];
    }

    method LoadAndDelete(keys: seq<string>) returns (reqs: seq<InBoundReq>)
      requires NoDup(keys) && Elems(keys) <= items.Keys
      modifies this`items
      ensures |reqs| == |keys| && items == old(items) - Elems(keys)
      ensures forall i :: 0 <= i < |reqs| ==> keys[i] in old(items) && reqs[i] == old(items)[keys[i]]
    {
      reqs := [];
      for i := 0 to |keys|
        invariant |reqs| == i
        invariant items == old(items) - Elems(keys[..i])
        invariant forall j :: 0 <= j < i ==> keys[j] in old(items) && reqs[j] == old(items)[keys[j]]
      {
        TakeNext(keys, i);
        reqs := reqs + [items[keys[i]]];
        items := items - {keys[i]};
      }
      assert keys[..|keys|] == keys;
    }

    /** Ranges over the map in any order. */
    method RangeKeys() returns (allkeys: seq<string>)
      ensures NoDup(allkeys) && Elems(allkeys) == items.Keys
    {
      allkeys := [];
      var rest := items.Keys;
      while rest != {}
        invariant rest <= items.Keys && NoDup(allkeys)
        invariant Elems(allkeys) == items.Keys - rest
      {
        var k :| k in rest;
        rest := rest - {k};
        ElemsAppend(allkeys, k);
        allkeys := allkeys + [k];
      }
    }

    /** Takes the n smallest keys, in any order of iteration over the map. */
    method PopItem(n: nat) returns (reqs: seq<InBoundReq>, ghost keys: seq<string>)
      requires Valid()
      modifies this`items
      ensures Valid()
      ensures IsBatch(old(items.Keys), n, keys) && |reqs| == |keys|
      ensures forall i :: 0 <= i < |reqs| ==>
        keys[i] in old(items) && reqs[i] == old(items)[keys[i]] && reqs[i].Index() == keys[i]
      ensures items == old(items) - Elems(keys) && NoDup(reqs)
    {
      var allkeys := RangeKeys();
      var sorted := SortKeys(allkeys);
      var taken := FirstOf(items.Keys, allkeys, sorted, n);
      keys := taken;
      reqs := LoadAndDelete(taken);
      assert forall i :: 0 <= i < |reqs| ==> reqs[i].Index() == keys[i];
    }

    /** FeedTx of cosbridge/feed.go: pops a batch and gives its items consecutive account sequences.
        signer and account are the answers of the node; None is a failed query. */
    method FeedTx(n: nat, signer: Option<bool>, account: Option<(uint64, uint64)>, address: string, pk: string)
      returns (batch: seq<InBoundReq>, failed: bool, ghost keys: seq<string>)
      requires Valid()
      modifies this`items, items.Values
      ensures Valid()
      ensures failed <==> signer.None? || (signer.value && account.None?)
      ensures failed || !signer.value ==> batch == [] && items == old(items)
      ensures !failed && signer.value ==>
        && IsBatch(old(items).Keys, n, keys) && |batch| == |keys|
        && items == old(items) - Elems(keys)
        && forall i :: 0 <= i < |batch| ==>
          && keys[i] in old(items) && batch[i] == old(items)[keys[i]]
          && SequenceSet(batch[i], account.value.0, SeqNo(account.value.1, i), address, pk)
      ensures batch != [] ==> batch[0].accSeq == account.value.1
      ensures batch != [] <==> signer == Some(true) && account.Some? && n > 0 && old(items) != map[]
      ensures |batch| == if batch == [] then 0 else Min(n, |old(items)|)
      ensures batch == [] ==> items == old(items)
    {
      batch, failed, keys := [], false, [];
      if signer.None? {
        failed := true;
        return;
      }
      if !signer.value {
        return;
      }
      if account.None? {
        failed := true;
        return;
      }
      ghost var was := items;
      batch, keys := PopAndNumber(n, account.value.0, account.value.1, address, pk);
      BatchSize(was, n, keys);
    }

    method PopAndNumber(n: nat, number: uint64, first: uint64, address: string, pk: string)
      returns (batch: seq<InBoundReq>, ghost keys: seq<string>)
      requires Valid()
      modifies this`items, items.Values
      ensures Valid()
      ensures IsBatch(old(items).Keys, n, keys) && |batch| == |keys| && items == old(items) - Elems(keys)
      ensures forall i :: 0 <= i < |batch| ==>
        && keys[i] in old(items) && batch[i] == old(items)[keys[i]]
        && SequenceSet(batch[i], number, SeqNo(first, i), address, pk)
      ensures batch != [] ==> batch[0].accSeq == first
    {
      batch, keys := PopItem(n);
      AssignSequences(batch, number, first, address, pk);
      forall k | k in items
        ensures items[k].Index() == k
      {
        if items[k] in batch {
        } else {
        }
      }
    }
  }

  /** The batch was taken from items under keys, and left is the rest. */
  ghost predicate Popped<T>(items: map<string, T>, keys: seq<string>, batch: seq<T>, left: map<string, T>) {
    && |batch| == |keys| && left == items - Elems(keys)
    && forall i :: 0 <= i < |batch| ==> keys[i] in items && batch[i] == items[keys[i]]
  }

  lemma MapCard<T>(m: map<string, T>)
    ensures |m.Keys| == |m| && (|m| == 0 <==> m == map[])
  {
  }

  lemma BatchSize<T>(m: map<string, T>, n: nat, keys: seq<string>)
    requires IsBatch(m.Keys, n, keys)
    ensures |keys| == Min(n, |m|) && (keys != [] <==> n > 0 && m != map[])
    ensures keys == [] ==> m - Elems(keys) == m
  {
    MapCard(m);
  }

  /** The assignment loop of FeedTx. */
  method AssignSequences(batch: seq<InBoundReq>, number: uint64, first: uint64, address: string, pk: string)
    requires NoDup(batch)
    modifies batch
    ensures forall i :: 0 <= i < |batch| ==> SequenceSet(batch[i], number, SeqNo(first, i), address, pk)
    ensures forall r :: r in batch ==> r.Index() == old(r.Index()) && r.Hash() == old(r.Hash())
  {
    var accSeq: int := first;
    for i := 0 to |batch|
      invariant accSeq == SeqNo(first, i)
      invariant forall j :: 0 <= j < i ==> SequenceSet(batch[j], number, SeqNo(first, j), address, pk)
      invariant forall r :: r in batch ==> r.Index() == old(r.Index()) && r.Hash() == old(r.Hash())
    {
      NextNumber(first, i);
      assert forall j :: 0 <= j < i ==> batch[j] != batch[i];
      batch[i].SetAccountInfo(number, accSeq, address, pk);
      accSeq := (accSeq + 1) % UINT64;
    }
  }

  ghost predicate SequenceSet(r: InBoundReq, number: int, sequence: int, address: string, pk: string)
    reads r
  {
    r.accNum == number && r.accSeq == sequence && r.poolCosAddress == address && r.poolPk == pk
  }

  /** The i-th of the consecutive 64-bit numbers that start at first. */
  function SeqNo(first: uint64, i: nat): (r: uint64)
    ensures r == (first + i) % UINT64
    ensures i == 0 ==> r == first
  {
    (first + i) % UINT64
  }

  lemma NextNumber(first: uint64, i: nat)
    ensures SeqNo(first, i + 1) == (SeqNo(first, i) + 1) % UINT64
  {
  }

  /** The slice of the sorted keys that is popped. */
  method FirstOf(ghost keys: set<string>, ghost listed: seq<string>, sorted: seq<string>, n: nat) returns (taken: seq<string>)
    requires NoDup(listed) && Elems(listed) == keys
    requires multiset(sorted) == multiset(listed) && SortedByValue(sorted)
    ensures IsBatch(keys, n, taken) && NoDup(taken) && Elems(taken) <= keys
    ensures forall i :: 0 <= i < |taken| ==> taken[i] in keys
  {
    PrefixIsBatch(keys, listed, sorted, n);
    var returnNum := if |sorted| < n then |sorted| else n;
    taken := sorted[..returnNum];
    assert forall i :: 0 <= i < |taken| ==> taken[i] in Elems(taken);
  }

  lemma ElemsAppend(s: seq<string>, k: string)
    requires k !in Elems(s)
    ensures Elems(s + [k]) == Elems(s) + {k}
    ensures NoDup(s) ==> NoDup(s + [k])
  {
  }

  lemma TakeNext(keys: seq<string>, i: nat)
    requires NoDup(keys) && i < |keys|
    ensures keys[i] in Elems(keys) && keys[i] !in Elems(keys[..i])
    ensures Elems(keys[..i + 1]) == Elems(keys[..i]) + {keys[i]}
  {
    assert keys[..i + 1] == keys[..i] + [keys[i]];
  }

  /** FeedTx of pubchain/feed.go: gives the popped items consecutive nonces. The items of a batch are
      distinct because their map keys are. A failed key conversion or nonce query changes nothing. */
  method FeedOutbound(batch: seq<OutBoundReq>, poolAddress: Option<string>, pendingNonce: Option<uint64>)
    returns (failed: bool)
    requires NoDup(batch)
    modifies batch
    ensures failed <==> poolAddress.None? || pendingNonce.None?
    ensures failed ==> forall r :: r in batch ==> NonceSet(r, old(r.nonce), old(r.fromPoolAddr))
    ensures !failed ==> forall i :: 0 <= i < |batch| ==>
      NonceSet(batch[i], SeqNo(pendingNonce.value, i), poolAddress.value)
    ensures !failed && batch != [] ==> batch[0].nonce == pendingNonce.value
    ensures forall r :: r in batch ==> r.Index() == old(r.Index()) && r.Hash() == old(r.Hash())
  {
    failed := poolAddress.None? || pendingNonce.None?;
    if failed {
      return;
    }
    var nonce: int := pendingNonce.value;
    for i := 0 to |batch|
      invariant nonce == SeqNo(pendingNonce.value, i)
      invariant forall j :: 0 <= j < i ==> NonceSet(batch[j], SeqNo(pendingNonce.value, j), poolAddress.value)
      invariant forall r :: r in batch ==> r.Index() == old(r.Index()) && r.Hash() == old(r.Hash())
    {
      NextNumber(pendingNonce.value, i);
      assert forall j :: 0 <= j < i ==> batch[j] != batch[i];
      batch[i].SetItemNonce(poolAddress.value, nonce);
      nonce := (nonce + 1) % UINT64;
    }
  }

  ghost predicate NonceSet(r: OutBoundReq, nonce: int, fromPoolAddr: string)
    reads r
  {
    r.nonce == nonce && r.fromPoolAddr == fromPoolAddr
  }

  /** Consecutive 64-bit nonces of one batch differ even when they wrap. */
  lemma NoncesDistinct(first: uint64, i: nat, j: nat)
    requires i < j < UINT64
    ensures SeqNo(first, i) != SeqNo(first, j)
  {
  }
}
