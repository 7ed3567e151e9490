/** Choosing the submitted transaction of a request: cosbridge/submit_outboundtx.go. The float32
    threshold int(float32(2n) / 3) is taken as floor(2n / 3). */
module Quorum {
  import opened Common

  function Threshold(validators: nat): (t: nat)
    ensures 3 * t <= 2 * validators < 3 * (t + 1)
  {
    2 * validators / 3
  }

  /** A record lists each of n validators at most once, under at most one transaction, and a transaction
      only once some validator has recorded it. */
  ghost predicate HonestRecord(entries: map<string, seq<nat>>, n: nat) {
    && (forall tx :: tx in entries ==> entries[tx] != [] && NoDup(entries[tx]) && forall v :: v in entries[tx] ==> v < n)
    && (forall s, t, v :: s in entries && t in entries && v in entries[s] && v in entries[t] ==> s == t)
  }

  predicate Reaches(entries: map<string, seq<nat>>, n: nat, tx: string) {
    tx in entries && 3 * |entries[tx]| + 2 >= 2 * n
  }

  /** A transaction has a quorum when as many validators as the threshold have recorded it. */
  lemma ReachesIff(entries: map<string, seq<nat>>, n: nat, tx: string)
    ensures Reaches(entries, n, tx) <==> tx in entries && |entries[tx]| >= Threshold(n)
  {
  }

  /** The map is ranged over in any order and the first entry list that is long enough wins; the answer
      is the empty string when there is none, or when its key is empty. */
  method GetPubChainSubmittedTx(entries: map<string, seq<nat>>, validators: nat) returns (target: string)
    ensures target != "" ==> Reaches(entries, validators, target)
    ensures target == "" ==> Reaches(entries, validators, "") || forall tx :: !Reaches(entries, validators, tx)
  {
    var min := 2 * validators / 3;
    target := "";
    var rest := entries.Keys;
    while rest != {}
      invariant rest <= entries.Keys && target == ""
      invariant forall tx :: tx in entries && tx !in rest ==> !Reaches(entries, validators, tx)
    {
      var key :| key in rest;
      rest := rest - {key};
      if |entries[key]| >= min {
        return key;
      }
    }
  }

  lemma TwoEntriesFit(entries: map<string, seq<nat>>, n: nat, s: string, t: string)
    requires HonestRecord(entries, n) && s in entries && t in entries && s != t
    ensures |entries[s]| + |entries[t]| <= n
  {
    NoDupCard(entries[s]);
    NoDupCard(entries[t]);
    BelowCard(n);
    var a, b := Elems(entries[s]), Elems(entries[t]);
    assert a !! b;
    assert |a + b| == |a| + |b|;
    SubsetCard(a + b, Below(n));
  }

  /** The number of validators for which two transactions can never both reach the threshold. */
  predicate Decisive(n: nat) {
    n != 2 && n != 4
  }

  /** A second transaction with the threshold exists in some record for 2 and for 4 validators. */
  lemma Ambiguous(n: nat) returns (entries: map<string, seq<nat>>)
    requires !Decisive(n)
    ensures HonestRecord(entries, n) && Reaches(entries, n, "a") && Reaches(entries, n, "b")
  {
    entries :=
      if n == 2 then map["a" := [0], "b" := [1]]
      else map["a" := [0, 1], "b" := [2, 3]];
    assert "a"[0] != "b"[0];
  }

  /** The answer does not depend on the order of iteration, over all honest records, exactly unless
      there are 2 or 4 validators. */
  lemma UniqueIff(n: nat)
    ensures (forall entries, s, t :: HonestRecord(entries, n) && Reaches(entries, n, s) && Reaches(entries, n, t) ==> s == t)
            <==> Decisive(n)
  {
    if Decisive(n) {
      assert n > 2 ==> 2 * Threshold(n) > n;
      forall entries, s, t | HonestRecord(entries, n) && Reaches(entries, n, s) && Reaches(entries, n, t)
        ensures s == t
      {
        if s != t {
          assert |entries[s]| >= 1 && |entries[t]| >= 1;
          TwoEntriesFit(entries, n, s, t);
        }
      }
    } else {
      var entries := Ambiguous(n);
      assert "a"[0] != "b"[0];
      assert Reaches(entries, n, "a") && Reaches(entries, n, "b");
    }
  }
}
