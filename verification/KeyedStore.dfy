/** Storing a sequence of keyed values into a map, one after the other: what loading saved requests
    and putting dumped ones back do. */
module KeyedStore {
  import opened Common

  function StoreAll<T>(m: map<string, T>, s: seq<(string, T)>): map<string, T> {
    if s == [] then m else StoreAll(m, s[..|s| - 1])[s[|s| - 1].0 := s[|s| - 1].1]
  }

  ghost predicate DistinctKeys<T>(s: seq<(string, T)>) {
    forall i, j :: 0 <= i < j < |s| ==> s[i].0 != s[j].0
  }

  /** s lists the entries of m, each once, in some order. */
  ghost predicate Enumerates<T>(s: seq<(string, T)>, m: map<string, T>) {
    && DistinctKeys(s)
    && (forall p :: p in s ==> p.0 in m && m[p.0] == p.1)
    && (forall k :: k in m ==> exists p :: p in s && p.0 == k)
  }

  /** With distinct keys no stored value is overwritten, and nothing else changes. */
  lemma {:induction false} StoreAllDistinct<T>(m: map<string, T>, s: seq<(string, T)>)
    requires DistinctKeys(s)
    ensures forall p :: p in s ==> p.0 in StoreAll(m, s) && StoreAll(m, s)[p.0] == p.1
    ensures forall k :: k in StoreAll(m, s) <==> k in m || exists p :: p in s && p.0 == k
    ensures forall k :: k in m && (forall p :: p in s ==> p.0 != k) ==> StoreAll(m, s)[k] == m[k]
  {
    if s != [] {
      var init, last := s[..|s| - 1], s[|s| - 1];
      assert s == init + [last];
      StoreAllDistinct(m, init);
      forall k | k in StoreAll(m, s)
        ensures k in m || exists p :: p in s && p.0 == k
      {
        if k == last.0 {
          assert last in s;
        } else if k !in m {
          var p :| p in init && p.0 == k;
          assert p in s;
        }
      }
    }
  }

  /** Saving a map in any order and loading it into an empty one rebuilds it. */
  lemma Rebuild<T>(m: map<string, T>, s: seq<(string, T)>)
    requires Enumerates(s, m)
    ensures StoreAll(map[], s) == m
  {
    StoreAllDistinct(map[], s);
    var r := StoreAll(map[], s);
    forall k | k in m
      ensures k in r && r[k] == m[k]
    {
      var p :| p in s && p.0 == k;
    }
    forall k | k in r
      ensures k in m
    {
      var p :| p in s && p.0 == k;
    }
  }
}
