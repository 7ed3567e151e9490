/** Minting a batch on the Joltify chain: sequence assignment and signature matching of
    batchGenSendTx (cosbridge/bridge.go) and the report of DoProcessInBound (cosbridge/mint.go). */
module MintBatch {
  import opened Common

  /** Message i travels in the transaction with sequence accSeq + i. */
  ghost predicate Numbered(byNumber: map<nat, string>, msgs: seq<string>, accSeq: nat) {
    && (forall s :: s in byNumber <==> accSeq <= s < accSeq + |msgs|)
    && (forall s :: s in byNumber ==> byNumber[s] == msgs[s - accSeq])
  }

  /** The transactions composed from the first n messages, by the digest to be signed. */
  ghost predicate Composed(digests: seq<string>, msgs: seq<string>, accSeq: nat, n: nat,
                           txByDigest: map<string, string>, seqByDigest: map<string, nat>)
    requires n <= |msgs| == |digests|
  {
    && txByDigest.Keys == seqByDigest.Keys == Elems(digests[..n])
    && (forall j :: 0 <= j < n ==>
          digests[j] in seqByDigest && seqByDigest[digests[j]] == accSeq + j && txByDigest[digests[j]] == msgs[j])
  }

  method ComposeTxs(digests: seq<string>, msgs: seq<string>, accSeq: nat)
    returns (txByDigest: map<string, string>, seqByDigest: map<string, nat>)
    requires |digests| == |msgs| && NoDup(digests)
    ensures Composed(digests, msgs, accSeq, |msgs|, txByDigest, seqByDigest)
  {
    txByDigest, seqByDigest := map[], map[];
    for i := 0 to |msgs|
      invariant Composed(digests, msgs, accSeq, i, txByDigest, seqByDigest)
    {
      txByDigest := txByDigest[digests[i] := msgs[i]];
      seqByDigest := seqByDigest[digests[i] := accSeq + i];
      assert digests[..i + 1] == digests[..i] + [digests[i]];
    }
  }

  /** txBySeq holds, under its sequence, every transaction whose digest came back signed. */
  ghost predicate SignedOnly(txBySeq: map<nat, string>, digests: seq<string>, msgs: seq<string>, accSeq: nat, signed: seq<string>)
    requires |digests| == |msgs|
  {
    && (forall s :: s in txBySeq <==> accSeq <= s < accSeq + |msgs| && digests[s - accSeq] in signed)
    && (forall s :: s in txBySeq ==> txBySeq[s] == msgs[s - accSeq])
  }

  /** digests[i] is what is signed for message i with sequence accSeq + i. The signatures come back in
      any order; each is matched to its transaction by the signed digest. None is a failed signing, and
      so is a wrong number of signatures; an unknown digest would be a nil dereference. */
  method BatchGenSendTx(digests: seq<string>, msgs: seq<string>, accSeq: nat, signed: Option<seq<string>>)
    returns (txBySeq: Option<map<nat, string>>)
    requires |digests| == |msgs| && NoDup(digests)
    requires signed.Some? ==> forall d :: d in signed.value ==> d in digests
    ensures txBySeq.Some? <==> signed.Some? && |signed.value| == |digests|
    ensures txBySeq.Some? ==> SignedOnly(txBySeq.value, digests, msgs, accSeq, signed.value)
  {
    var txByDigest, seqByDigest := ComposeTxs(digests, msgs, accSeq);
    assert digests[..|msgs|] == digests;
    if signed.None? || |signed.value| != |digests| {
      return None;
    }
    var txs := MatchSignatures(digests, msgs, accSeq, txByDigest, seqByDigest, signed.value);
    return Some(txs);
  }

  method MatchSignatures(digests: seq<string>, msgs: seq<string>, accSeq: nat, txByDigest: map<string, string>,
                         seqByDigest: map<string, nat>, signatures: seq<string>) returns (txs: map<nat, string>)
    requires |digests| == |msgs| && NoDup(digests) && Composed(digests, msgs, accSeq, |msgs|, txByDigest, seqByDigest)
    requires forall d :: d in signatures ==> d in digests
    ensures SignedOnly(txs, digests, msgs, accSeq, signatures)
  {
    txs := map[];
    for k := 0 to |signatures|
      invariant SignedOnly(txs, digests, msgs, accSeq, signatures[..k])
    {
      ghost var before := txs;
      var d := signatures[k];
      var j := MatchOne(digests, msgs, accSeq, txByDigest, seqByDigest, d);
      SignNext(txs, digests, msgs, accSeq, signatures, k, j);
      txs := txs[seqByDigest[d] := txByDigest[d]];
      assert txs == before[accSeq + j := msgs[j]];
    }
    assert signatures[..|signatures|] == signatures;
  }

  lemma SignOne(txs: map<nat, string>, digests: seq<string>, msgs: seq<string>, accSeq: nat, signed: seq<string>, j: nat)
    requires |digests| == |msgs| && NoDup(digests) && SignedOnly(txs, digests, msgs, accSeq, signed) && j < |msgs|
    ensures SignedOnly(txs[accSeq + j := msgs[j]], digests, msgs, accSeq, signed + [digests[j]])
  {
  }

  lemma SignNext(txs: map<nat, string>, digests: seq<string>, msgs: seq<string>, accSeq: nat, signatures: seq<string>, k: nat, j: nat)
    requires |digests| == |msgs| && NoDup(digests) && k < |signatures| && j < |digests| && signatures[k] == digests[j]
    requires SignedOnly(txs, digests, msgs, accSeq, signatures[..k])
    ensures SignedOnly(txs[accSeq + j := msgs[j]], digests, msgs, accSeq, signatures[..k + 1])
  {
    SignOne(txs, digests, msgs, accSeq, signatures[..k], j);
    assert signatures[..k + 1] == signatures[..k] + [digests[j]];
  }

  /** When every transaction was signed once, in whatever order, each sequence has its message. */
  lemma AllSigned(txBySeq: map<nat, string>, digests: seq<string>, msgs: seq<string>, accSeq: nat, signed: seq<string>)
    requires |digests| == |msgs| && SignedOnly(txBySeq, digests, msgs, accSeq, signed)
    requires multiset(signed) == multiset(digests)
    ensures Numbered(txBySeq, msgs, accSeq)
  {
    SameMembers(signed, digests);
    forall s: nat | accSeq <= s < accSeq + |msgs|
      ensures s in txBySeq
    {
      assert digests[s - accSeq] in signed;
    }
  }

  lemma MatchOne(digests: seq<string>, msgs: seq<string>, accSeq: nat,
                 txByDigest: map<string, string>, seqByDigest: map<string, nat>, d: string) returns (j: nat)
    requires |digests| == |msgs| && Composed(digests, msgs, accSeq, |msgs|, txByDigest, seqByDigest) && d in digests
    ensures j < |digests| && digests[j] == d
    ensures d in seqByDigest && seqByDigest[d] == accSeq + j && d in txByDigest && txByDigest[d] == msgs[j]
  {
    j :| 0 <= j < |digests| && digests[j] == d;
  }

  lemma SameMembers(a: seq<string>, b: seq<string>)
    requires multiset(a) == multiset(b)
    ensures forall x :: x in a <==> x in b
  {
    assert forall x :: x in a <==> x in multiset(a);
    assert forall x :: x in b <==> x in multiset(b);
  }

  /** An inbound item: the object, the hash it is reported under, its mint message, and its account
      sequence. */
  datatype Item = Item(uid: nat, hash: string, msg: string, accSeq: nat)

  function Messages(items: seq<Item>): (r: seq<string>)
    ensures |r| == |items| && forall i :: 0 <= i < |r| ==> r[i] == items[i].msg
  {
    seq(|items|, i requires 0 <= i < |items| => items[i].msg)
  }

  /** What Go returns for a key that may be missing. */
  function Lookup(m: map<nat, string>, k: nat): string {
    if k in m then m[k] else ""
  }

  /** The sends of batchComposeAndSend, in any order: the hash of each transaction the chain accepted,
      under its sequence. */
  method SendAll(txs: map<nat, string>, answers: map<nat, string>) returns (txHashes: map<nat, string>)
    ensures forall s :: s in txHashes <==> s in txs && s in answers
    ensures forall s :: s in txHashes ==> txHashes[s] == answers[s]
  {
    txHashes := map[];
    var rest := txs.Keys;
    while rest != {}
      invariant rest <= txs.Keys
      invariant forall s :: s in txHashes <==> s in txs && s !in rest && s in answers
      invariant forall s :: s in txHashes ==> txHashes[s] == answers[s]
    {
      var s :| s in rest;
      rest := rest - {s};
      if s in answers {
        txHashes := txHashes[s := answers[s]];
      }
    }
  }

  ghost predicate LastOfHash(items: seq<Item>, j: nat)
    requires j < |items|
  {
    forall k :: j < k < |items| ==> items[k].hash != items[j].hash
  }

  /** DoProcessInBound: the messages are numbered from the sequence of the first item, and every item
      is reported with the hash found under its own sequence; of items with one hash the last one
      counts. answers holds the chain's answer, by sequence, for the transactions it accepted. */
  method DoProcessInBound(items: seq<Item>, digests: seq<string>, signed: Option<seq<string>>, answers: map<nat, string>)
    returns (report: map<string, string>, ghost txBySeq: map<nat, string>)
    requires items != [] && |digests| == |items| && NoDup(digests)
    requires signed.Some? ==> forall d :: d in signed.value ==> d in digests
    ensures if signed.Some? && |signed.value| == |digests|
            then SignedOnly(txBySeq, digests, Messages(items), items[0].accSeq, signed.value)
            else txBySeq == map[]
    ensures report.Keys == set x | x in items :: x.hash
    ensures forall j :: 0 <= j < |items| ==> items[j].hash in report
    ensures forall j :: 0 <= j < |items| && LastOfHash(items, j) ==>
      report[items[j].hash] == if items[j].accSeq in txBySeq then Lookup(answers, items[j].accSeq) else ""
  {
    var txs := BatchGenSendTx(digests, Messages(items), items[0].accSeq, signed);
    txBySeq := if txs.Some? then txs.value else map[];
    var txHashes: map<nat, string> := map[];
    if txs.Some? {
      txHashes := SendAll(txs.value, answers);
    }
    report := Report(items, txHashes);
    assert items[..|items|] == items;
  }

  ghost predicate Reported(items: seq<Item>, n: nat, txHashes: map<nat, string>, report: map<string, string>)
    requires n <= |items|
  {
    && (forall i :: 0 <= i < n ==> items[i].hash in report)
    && (forall i :: 0 <= i < n && LastOfHash(items[..n], i) ==> report[items[i].hash] == Lookup(txHashes, items[i].accSeq))
  }

  lemma ReportNext(items: seq<Item>, n: nat, txHashes: map<nat, string>, report: map<string, string>)
    requires n < |items| && Reported(items, n, txHashes, report)
    ensures Reported(items, n + 1, txHashes, report[items[n].hash := Lookup(txHashes, items[n].accSeq)])
  {
    var next := report[items[n].hash := Lookup(txHashes, items[n].accSeq)];
    forall i | 0 <= i < n && LastOfHash(items[..n + 1], i)
      ensures next[items[i].hash] == Lookup(txHashes, items[i].accSeq)
    {
      assert items[..n + 1][n].hash != items[i].hash;
      assert forall k :: i < k < n ==> items[..n + 1][k] == items[..n][k];
      assert LastOfHash(items[..n], i);
    }
  }

  method Report(items: seq<Item>, txHashes: map<nat, string>) returns (report: map<string, string>)
    ensures report.Keys == set x | x in items :: x.hash
    ensures Reported(items, |items|, txHashes, report)
  {
    report := map[];
    for j := 0 to |items|
      invariant report.Keys == set x | x in items[..j] :: x.hash
      invariant Reported(items, j, txHashes, report)
    {
      assert items[..j + 1] == items[..j] + [items[j]];
      ReportNext(items, j, txHashes, report);
      report := report[items[j].hash := Lookup(txHashes, items[j].accSeq)];
    }
    assert items[..|items|] == items;
  }

  // ----- alignment -----

  /** Positions of a popped batch that survived the filter, in order. */
  ghost predicate Survivors(kept: seq<nat>, popped: nat) {
    && (forall i, j :: 0 <= i < j < |kept| ==> kept[i] < kept[j])
    && (forall i :: 0 <= i < |kept| ==> kept[i] < popped)
  }

  /** The items kept from a batch whose item p was given sequence first + p. */
  ghost predicate FromBatch(items: seq<Item>, kept: seq<nat>, first: nat) {
    && |items| == |kept|
    && (forall j :: 0 <= j < |items| ==> items[j].accSeq == first + kept[j])
    && (forall i, j :: 0 <= i < j < |items| ==> items[i].msg != items[j].msg)
  }

  ghost predicate Contiguous(kept: seq<nat>) {
    forall j :: 0 <= j < |kept| ==> kept[j] == kept[0] + j
  }

  /** The transaction looked up for item j carries the message of item j. */
  ghost predicate Aligned(items: seq<Item>, txBySeq: map<nat, string>, j: nat)
    requires j < |items|
  {
    items[j].accSeq in txBySeq && txBySeq[items[j].accSeq] == items[j].msg
  }

  /** Which transaction an item is reported with, whatever the order of the signatures: the one
      carrying the message of item kept[j] - kept[0], and none when there is no such item. */
  lemma ReportedTransaction(items: seq<Item>, kept: seq<nat>, first: nat, popped: nat, txBySeq: map<nat, string>, j: nat)
    requires items != [] && j < |items| && Survivors(kept, popped) && FromBatch(items, kept, first)
    requires Numbered(txBySeq, Messages(items), items[0].accSeq)
    ensures kept[j] >= kept[0] + j && items[j].accSeq == items[0].accSeq + (kept[j] - kept[0])
    ensures items[j].accSeq in txBySeq <==> kept[j] - kept[0] < |items|
    ensures kept[j] - kept[0] < |items| ==> txBySeq[items[j].accSeq] == items[kept[j] - kept[0]].msg
    ensures Aligned(items, txBySeq, j) <==> kept[j] == kept[0] + j
  {
    AtLeastConsecutive(kept, popped, j);
    var d := kept[j] - kept[0];
    assert items[j].accSeq == items[0].accSeq + d;
    if d < |items| {
      assert txBySeq[items[0].accSeq + d] == Messages(items)[d];
    }
  }

  lemma {:induction false} AtLeastConsecutive(kept: seq<nat>, popped: nat, j: nat)
    requires Survivors(kept, popped) && j < |kept|
    ensures kept[j] >= kept[0] + j
  {
    if j != 0 {
      AtLeastConsecutive(kept, popped, j - 1);
    }
  }

  /** Every item is reported with its own transaction exactly when the survivors are a contiguous run
      of the popped batch. */
  lemma AlignedIffContiguous(items: seq<Item>, kept: seq<nat>, first: nat, popped: nat, txBySeq: map<nat, string>)
    requires items != [] && Survivors(kept, popped) && FromBatch(items, kept, first)
    requires Numbered(txBySeq, Messages(items), items[0].accSeq)
    ensures (forall j :: 0 <= j < |items| ==> Aligned(items, txBySeq, j)) <==> Contiguous(kept)
  {
    forall j | 0 <= j < |items|
      ensures Aligned(items, txBySeq, j) <==> kept[j] == kept[0] + j
    {
      ReportedTransaction(items, kept, first, popped, txBySeq, j);
    }
    assert Contiguous(kept) <==> forall j :: 0 <= j < |items| ==> kept[j] == kept[0] + j;
  }

  /** The answer of the chain for the transaction that carries the message of item j, which went out
      under the j-th sequence from that of the first item. */
  function OwnHash(items: seq<Item>, answers: map<nat, string>, j: nat): string
    requires j < |items|
  {
    Lookup(answers, items[0].accSeq + j)
  }

  /** What DoProcessInbound reports for items of distinct hashes. */
  ghost predicate ReportOf(items: seq<Item>, txBySeq: map<nat, string>, answers: map<nat, string>, report: map<string, string>) {
    forall j {:trigger items[j].hash} :: 0 <= j < |items| ==>
      items[j].hash in report
      && report[items[j].hash] == if items[j].accSeq in txBySeq then Lookup(answers, items[j].accSeq) else ""
  }

  /** Every sequence of the batch was accepted, under its own transaction hash. */
  ghost predicate AllAccepted(answers: map<nat, string>, first: nat, n: nat) {
    && (forall s :: first <= s < first + n ==> s in answers && answers[s] != "")
    && (forall s, t :: first <= s < t < first + n ==> answers[s] != answers[t])
  }

  /** What is reported for item j, by its place among the survivors. */
  lemma ReportedHash(items: seq<Item>, kept: seq<nat>, first: nat, popped: nat, txBySeq: map<nat, string>,
                     answers: map<nat, string>, reported: string, j: nat)
    requires items != [] && j < |items| && Survivors(kept, popped) && FromBatch(items, kept, first)
    requires Numbered(txBySeq, Messages(items), items[0].accSeq)
    requires reported == if items[j].accSeq in txBySeq then Lookup(answers, items[j].accSeq) else ""
    ensures kept[0] + j <= kept[j]
    ensures reported == if kept[j] - kept[0] < |items| then Lookup(answers, items[0].accSeq + (kept[j] - kept[0])) else ""
  {
    ReportedTransaction(items, kept, first, popped, txBySeq, j);
  }

  lemma OwnOrNot(answers: map<nat, string>, accSeq: nat, n: nat, j: nat, d: nat, reported: string)
    requires j <= d && j < n && reported == if d < n then Lookup(answers, accSeq + d) else ""
    ensures d == j ==> reported == Lookup(answers, accSeq + j)
    ensures d != j && AllAccepted(answers, accSeq, n) ==> reported != Lookup(answers, accSeq + j)
  {
  }

  /** Every item is reported by its place among the survivors. */
  ghost predicate ByPlace(items: seq<Item>, kept: seq<nat>, answers: map<nat, string>, report: map<string, string>)
    requires |items| == |kept|
  {
    forall j {:trigger items[j].hash} :: 0 <= j < |items| ==>
      && items[j].hash in report && kept[0] + j <= kept[j]
      && report[items[j].hash]
         == if kept[j] - kept[0] < |items| then Lookup(answers, items[0].accSeq + (kept[j] - kept[0])) else ""
  }

  lemma ReportedByPlace(items: seq<Item>, kept: seq<nat>, first: nat, popped: nat, txBySeq: map<nat, string>,
                        answers: map<nat, string>, report: map<string, string>)
    requires items != [] && Survivors(kept, popped) && FromBatch(items, kept, first)
    requires Numbered(txBySeq, Messages(items), items[0].accSeq) && ReportOf(items, txBySeq, answers, report)
    ensures ByPlace(items, kept, answers, report)
  {
    forall j {:trigger items[j].hash} | 0 <= j < |items|
      ensures items[j].hash in report && kept[0] + j <= kept[j]
      ensures report[items[j].hash]
              == if kept[j] - kept[0] < |items| then Lookup(answers, items[0].accSeq + (kept[j] - kept[0])) else ""
    {
      ReportedHash(items, kept, first, popped, txBySeq, answers, report[items[j].hash], j);
    }
  }

  /** Every item is reported with the hash of the transaction that carries its own message. */
  ghost predicate AllOwn(items: seq<Item>, answers: map<nat, string>, report: map<string, string>) {
    forall j {:trigger items[j].hash} :: 0 <= j < |items| ==>
      items[j].hash in report && report[items[j].hash] == OwnHash(items, answers, j)
  }

  /** The hash reported for an item is that of the transaction carrying its own message if the survivors
      are a contiguous run of the popped batch, and, once all transactions are accepted, only then: any
      gap shifts what is reported for the items behind it. */
  lemma ReportedIffContiguous(items: seq<Item>, kept: seq<nat>, answers: map<nat, string>, report: map<string, string>)
    requires items != [] && |items| == |kept| && ByPlace(items, kept, answers, report)
    ensures Contiguous(kept) ==> AllOwn(items, answers, report)
    ensures AllAccepted(answers, items[0].accSeq, |items|) && AllOwn(items, answers, report) ==> Contiguous(kept)
  {
    forall j | 0 <= j < |kept|
      ensures kept[j] == kept[0] + j ==> report[items[j].hash] == OwnHash(items, answers, j)
      ensures AllAccepted(answers, items[0].accSeq, |items|) && report[items[j].hash] == OwnHash(items, answers, j)
              ==> kept[j] == kept[0] + j
    {
      assert items[j].hash in report;
      OwnOrNot(answers, items[0].accSeq, |items|, j, kept[j] - kept[0], report[items[j].hash]);
    }
  }

  /** The same for a whole call, for items of distinct hashes and signatures in any order. */
  method MintFiltered(items: seq<Item>, kept: seq<nat>, first: nat, popped: nat, digests: seq<string>,
                      signed: seq<string>, answers: map<nat, string>) returns (report: map<string, string>)
    requires items != [] && Survivors(kept, popped) && FromBatch(items, kept, first)
    requires forall i, j :: 0 <= i < j < |items| ==> items[i].hash != items[j].hash
    requires |digests| == |items| && NoDup(digests) && multiset(signed) == multiset(digests)
    ensures Contiguous(kept) ==> AllOwn(items, answers, report)
    ensures AllAccepted(answers, items[0].accSeq, |items|) ==> (AllOwn(items, answers, report) <==> Contiguous(kept))
  {
    SameMembers(signed, digests);
    assert |multiset(signed)| == |signed| && |multiset(digests)| == |digests|;
    ghost var txBySeq;
    report, txBySeq := DoProcessInBound(items, digests, Some(signed), answers);
    AllSigned(txBySeq, digests, Messages(items), items[0].accSeq, signed);
    assert forall j :: 0 <= j < |items| ==> LastOfHash(items, j);
    ReportedByPlace(items, kept, first, popped, txBySeq, answers, report);
    ReportedIffContiguous(items, kept, answers, report);
  }

  /** In particular when nothing was filtered. */
  lemma UnfilteredIsContiguous(kept: seq<nat>, popped: nat)
    requires Survivors(kept, popped) && |kept| == popped
    ensures Contiguous(kept)
  {
    forall j | 0 <= j < |kept|
      ensures kept[j] == j
    {
      AtLeastConsecutive(kept, popped, j);
      NoRoomAbove(kept, popped, j);
    }
  }

  lemma {:induction false} NoRoomAbove(kept: seq<nat>, popped: nat, j: nat)
    requires Survivors(kept, popped) && j < |kept|
    ensures kept[j] + (|kept| - 1 - j) < popped
    decreases |kept| - j
  {
    if j < |kept| - 1 {
      NoRoomAbove(kept, popped, j + 1);
    }
  }
}
