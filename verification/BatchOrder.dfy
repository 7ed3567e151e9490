/** Which keys a batch takes. The retry maps are ranged over in random order and sorted with an
    unstable sort, yet every node has to build the same batch. */
module BatchOrder {
  import opened Common
  import opened DecimalKeys

  ghost predicate SortedByValue(s: seq<string>) {
    forall i, j :: 0 <= i < j < |s| ==> Parse(s[i]) <= Parse(s[j])
  }

  /** batch is a possible result of sorting the keys and taking the first n. */
  ghost predicate IsBatch(keys: set<string>, n: nat, batch: seq<string>) {
    && |batch| == Min(n, |keys|)
    && NoDup(batch)
    && Elems(batch) <= keys
    && SortedByValue(batch)
    && forall k, b :: k in keys && k !in batch && b in batch ==> Parse(b) <= Parse(k)
  }

  ghost predicate DistinctValues(keys: set<string>) {
    forall k, l :: k in keys && l in keys && Parse(k) == Parse(l) ==> k == l
  }

  /** The batch is strictly increasing and below everything it leaves behind. */
  lemma BatchIsStrict(keys: set<string>, n: nat, batch: seq<string>)
    requires IsBatch(keys, n, batch) && DistinctValues(keys)
    ensures forall i, j :: 0 <= i < j < |batch| ==> Parse(batch[i]) < Parse(batch[j])
    ensures forall k, b :: k in keys && k !in batch && b in batch ==> Parse(b) < Parse(k)
  {
    forall i, j | 0 <= i < j < |batch|
      ensures Parse(batch[i]) < Parse(batch[j])
    {
      assert batch[i] in Elems(batch) && batch[j] in Elems(batch);
    }
    forall k, b | k in keys && k !in batch && b in batch
      ensures Parse(b) < Parse(k)
    {
      assert b in Elems(batch);
    }
  }

  lemma BatchesAgree(keys: set<string>, n: nat, a: seq<string>, b: seq<string>)
    requires IsBatch(keys, n, a) && IsBatch(keys, n, b) && DistinctValues(keys)
    ensures a == b
  {
    if a != b {
      var i :| 0 <= i < |a| && a[i] != b[i] && a[..i] == b[..i] by { FirstDifference(a, b); }
      assert a[i] in Elems(a) && b[i] in Elems(b);
      if Parse(a[i]) < Parse(b[i]) {
        SmallerIsTaken(keys, n, a, b, i);
      } else if Parse(b[i]) < Parse(a[i]) {
        SmallerIsTaken(keys, n, b, a, i);
      }
      assert false;
    }
  }

  lemma {:induction false} FirstDifference(a: seq<string>, b: seq<string>)
    requires |a| == |b| && a != b
    ensures exists i :: 0 <= i < |a| && a[i] != b[i] && a[..i] == b[..i]
  {
    var i := 0;
    while i < |a| && a[i] == b[i]
      invariant 0 <= i <= |a| && a[..i] == b[..i]
    {
      i := i + 1;
    }
  }

  lemma SmallerIsTaken(keys: set<string>, n: nat, a: seq<string>, b: seq<string>, i: nat)
    requires IsBatch(keys, n, a) && IsBatch(keys, n, b) && DistinctValues(keys)
    requires i < |a| && i < |b| && a[..i] == b[..i]
    ensures Parse(b[i]) <= Parse(a[i])
  {
    assert a[i] in Elems(a);
    forall m | 0 <= m < i
      ensures a[m] == b[m]
    {
      assert a[..i][m] == b[..i][m];
    }
    if a[i] in b {
      var j :| 0 <= j < |b| && b[j] == a[i];
      assert i <= j;
    }
  }

  lemma {:induction false} SortExists(keys: set<string>) returns (s: seq<string>)
    ensures IsBatch(keys, |keys|, s) && Elems(s) == keys
    decreases |keys|
  {
    if keys == {} {
      s := [];
    } else {
      var k :| k in keys;
      var rest := SortExists(keys - {k});
      s := Insert(k, rest);
      InsertSorted(k, rest);
      InsertMembers(k, rest);
      NoDupCard(s);
    }
  }

  /** Puts k after every key of smaller or equal value. */
  function Insert(k: string, s: seq<string>): (r: seq<string>)
    ensures multiset(r) == multiset(s) + multiset{k}
  {
    if s == [] then [k]
    else if Parse(s[|s| - 1]) <= Parse(k) then s + [k]
    else
      assert s == s[..|s| - 1] + [s[|s| - 1]];
      Insert(k, s[..|s| - 1]) + [s[|s| - 1]]
  }

  lemma {:induction false} NoDupCounts<T>(s: seq<T>)
    ensures NoDup(s) <==> forall x :: x in s ==> multiset(s)[x] == 1
  {
    if s != [] {
      var init, last := s[..|s| - 1], s[|s| - 1];
      assert s == init + [last];
      NoDupCounts(init);
      if NoDup(s) {
        assert last !in init;
      } else if NoDup(init) {
        assert last in init;
        assert multiset(s)[last] >= 2;
      } else {
        var x :| x in init && multiset(init)[x] != 1;
        assert x in s && multiset(s)[x] >= multiset(init)[x] >= 1;
      }
    }
  }

  lemma InsertMembers(k: string, s: seq<string>)
    ensures Elems(Insert(k, s)) == Elems(s) + {k}
    ensures NoDup(s) && k !in s ==> NoDup(Insert(k, s))
  {
    var r := Insert(k, s);
    forall x: string
      ensures x in r <==> x in s || x == k
    {
      assert x in r <==> x in multiset(r);
      assert x in s <==> x in multiset(s);
    }
    NoDupCounts(s);
    NoDupCounts(r);
    if NoDup(s) && k !in s {
      forall x | x in r
        ensures multiset(r)[x] == 1
      {
        assert k !in multiset(s);
        assert x in s || x == k;
      }
    }
  }

  lemma AppendSorted(s: seq<string>, last: string)
    requires SortedByValue(s) && forall x :: x in s ==> Parse(x) <= Parse(last)
    ensures SortedByValue(s + [last])
  {
  }

  lemma {:induction false} InsertSorted(k: string, s: seq<string>)
    requires SortedByValue(s)
    ensures SortedByValue(Insert(k, s))
  {
    if s != [] {
      var init, last := s[..|s| - 1], s[|s| - 1];
      assert s == init + [last];
      if Parse(last) <= Parse(k) {
        AppendSorted(s, k);
      } else {
        InsertSorted(k, init);
        InsertIn(k, init);
        AppendSorted(Insert(k, init), last);
      }
    }
  }

  lemma InsertIn(k: string, s: seq<string>)
    ensures forall x :: x in Insert(k, s) ==> x in s || x == k
  {
    InsertMembers(k, s);
    assert forall x :: x in Insert(k, s) <==> x in Elems(Insert(k, s));
  }

  /** Every node pops the same batch, whatever the order of iteration and whatever correct sort is
      used, exactly when no two keys read as the same number. */
  lemma DeterministicIff(keys: set<string>)
    ensures (forall n: nat, a, b :: IsBatch(keys, n, a) && IsBatch(keys, n, b) ==> a == b) <==> DistinctValues(keys)
  {
    if DistinctValues(keys) {
      forall n: nat, a, b | IsBatch(keys, n, a) && IsBatch(keys, n, b)
        ensures a == b
      {
        BatchesAgree(keys, n, a, b);
      }
    } else {
      var k, l :| k in keys && l in keys && Parse(k) == Parse(l) && k != l;
      var s := SortExists(keys);
      TieHasTwoOrders(keys, s, k, l);
    }
  }

  lemma TieHasTwoOrders(keys: set<string>, s: seq<string>, k: string, l: string)
    requires IsBatch(keys, |keys|, s) && Elems(s) == keys
    requires k in keys && l in keys && Parse(k) == Parse(l) && k != l
    ensures exists t :: IsBatch(keys, |keys|, t) && t != s
  {
    assert k in s && l in s;
    var i :| 0 <= i < |s| && s[i] == k;
    var j :| 0 <= j < |s| && s[j] == l;
    var t := s[i := l][j := k];
    Swapped(s, i, j);
    NoDupCard(t);
    SubsetCard(Elems(t), keys);
    assert IsBatch(keys, |keys|, t);
    assert t[i] != s[i];
  }

  /** Two keys of the same value may change places in a sorted list. */
  lemma Swapped(s: seq<string>, i: nat, j: nat)
    requires i < |s| && j < |s| && i != j && NoDup(s) && SortedByValue(s) && Parse(s[i]) == Parse(s[j])
    ensures var t := s[i := s[j]][j := s[i]];
            NoDup(t) && SortedByValue(t) && Elems(t) <= Elems(s)
  {
    var t := s[i := s[j]][j := s[i]];
    forall m | 0 <= m < |t|
      ensures Parse(t[m]) == Parse(s[m]) && t[m] in Elems(s)
    {
      assert s[m] in Elems(s) && s[i] in Elems(s) && s[j] in Elems(s);
    }
  }

  /** Keys of requests whose heights are not 0 never tie, so their batches are deterministic. */
  lemma NonZeroHeightsAreDeterministic(keys: set<string>, n: nat, a: seq<string>, b: seq<string>)
    requires forall k :: k in keys ==> exists h: int, x: nat :: h != 0 && k == Key(h, x)
    requires IsBatch(keys, n, a) && IsBatch(keys, n, b)
    ensures a == b
  {
    forall k, l | k in keys && l in keys && Parse(k) == Parse(l)
      ensures k == l
    {
      var h1: int, x1: nat :| h1 != 0 && k == Key(h1, x1);
      var h2: int, x2: nat :| h2 != 0 && l == Key(h2, x2);
      NonZeroHeightsNeverTie(h1, x1, h2, x2);
    }
    BatchesAgree(keys, n, a, b);
  }

  /** sort.Slice on the key list. Only what its contract says, a permutation in which no value
      decreases, is used by the callers. */
  method SortKeys(keys: seq<string>) returns (sorted: seq<string>)
    ensures multiset(sorted) == multiset(keys)
    ensures SortedByValue(sorted)
  {
    sorted := [];
    for i := 0 to |keys|
      invariant multiset(sorted) == multiset(keys[..i])
      invariant SortedByValue(sorted)
    {
      InsertSorted(keys[i], sorted);
      sorted := Insert(keys[i], sorted);
      assert keys[..i + 1] == keys[..i] + [keys[i]];
    }
    assert keys[..|keys|] == keys;
  }

  /** A correct sort of a listing of the keys lists them too. */
  lemma SortedLists(keys: set<string>, listed: seq<string>, sorted: seq<string>)
    requires NoDup(listed) && Elems(listed) == keys && multiset(sorted) == multiset(listed)
    ensures |sorted| == |keys| && NoDup(sorted) && Elems(sorted) == keys
  {
    NoDupCard(listed);
    NoDupCounts(listed);
    assert |multiset(sorted)| == |sorted| && |multiset(listed)| == |listed|;
    assert forall x :: x in sorted <==> x in multiset(sorted);
    assert forall x :: x in listed <==> x in multiset(listed);
    NoDupCounts(sorted);
  }

  /** A prefix of a sorted listing holds the smallest keys. */
  lemma PrefixIsSmallest(keys: set<string>, sorted: seq<string>, m: nat)
    requires Elems(sorted) == keys && SortedByValue(sorted) && m <= |sorted|
    ensures forall k, b :: k in keys && k !in sorted[..m] && b in sorted[..m] ==> Parse(b) <= Parse(k)
  {
    var batch := sorted[..m];
    forall k, b | k in keys && k !in batch && b in batch
      ensures Parse(b) <= Parse(k)
    {
      assert k in sorted;
      var i :| 0 <= i < |sorted| && sorted[i] == k;
      var j :| 0 <= j < |batch| && batch[j] == b;
      assert batch[j] == sorted[j];
      assert forall t :: 0 <= t < m ==> batch[t] == sorted[t] && batch[t] in batch;
    }
  }

  lemma PrefixElems(sorted: seq<string>, m: nat)
    requires NoDup(sorted) && SortedByValue(sorted) && m <= |sorted|
    ensures NoDup(sorted[..m]) && SortedByValue(sorted[..m]) && Elems(sorted[..m]) <= Elems(sorted)
  {
  }

  /** Taking the first n of any correct sort of the keys gives a batch. */
  lemma PrefixIsBatch(keys: set<string>, listed: seq<string>, sorted: seq<string>, n: nat)
    requires NoDup(listed) && Elems(listed) == keys
    requires multiset(sorted) == multiset(listed) && SortedByValue(sorted)
    ensures |sorted| == |keys| && NoDup(sorted) && Elems(sorted) == keys
    ensures IsBatch(keys, n, sorted[..Min(n, |sorted|)])
  {
    SortedLists(keys, listed, sorted);
    PrefixIsSmallest(keys, sorted, Min(n, |sorted|));
    PrefixElems(sorted, Min(n, |sorted|));
  }
}
