/** The cached window of the latest two pools, kept twice (pubchain/tx_inbound.go and
    cosbridge/tx_outbound.go), and its refresh on every Joltify block (bridge/bridge_service.go,
    bridge/helper.go). */
module PoolWindow {
  import opened Common
  import MoveFundSchedule

  type Job = MoveFundSchedule.Item

  datatype Pool = Pool(pk: string, address: string)

  /** The convertible pool keys and their addresses. */
  type Keys = map<string, string>

  ghost predicate Injective(keys: Keys) {
    forall p, q :: p in keys && q in keys && keys[p] == keys[q] ==> p == q
  }

  /** lastTwoPools: slot 0 and slot 1. */
  datatype Window = Window(older: Option<Pool>, latest: Option<Pool>)

  const EMPTY: Window := Window(None, None)

  /** The chain's answer: latest pool first. */
  datatype Query = Query(latest: string, older: string)

  predicate ValidQuery(keys: Keys, q: Query) {
    q.latest in keys && q.older in keys
  }

  function ToPool(keys: Keys, pk: string): Pool
    requires pk in keys
  {
    Pool(pk, keys[pk])
  }

  /** The window that a query stands for. */
  function WindowOf(keys: Keys, q: Query): Window
    requires ValidQuery(keys, q)
  {
    Window(Some(ToPool(keys, q.older)), Some(ToPool(keys, q.latest)))
  }

  /** UpdatePool: a key that does not convert changes nothing. */
  function Shift(keys: Keys, w: Window, pk: string): Window {
    if pk !in keys then w
    else Window(if w.latest.Some? then w.latest else w.older, Some(ToPool(keys, pk)))
  }

  predicate NeedsUpdate(keys: Keys, q: Query, w: Window) {
    if w.older.None? || w.latest.None? then true
    else if !ValidQuery(keys, q) then false
    else !(keys[q.latest] == w.latest.value.address && keys[q.older] == w.older.value.address)
  }

  class PoolCache {
    var older: Option<Pool>
    var latest: Option<Pool>

    function View(): Window
      reads this
    {
      Window(older, latest)
    }

    constructor ()
      ensures View() == EMPTY
    {
      older, latest := None, None;
    }

    /** Returns the former slot 0, and nothing for a key that does not convert. */
    method UpdatePool(keys: Keys, pk: string) returns (previous: Option<Pool>)
      modifies this
      ensures View() == Shift(keys, old(View()), pk)
      ensures previous == if pk in keys then old(older) else None
    {
      if pk !in keys {
        return None;
      }
      previous := older;
      if latest.Some? {
        older := latest;
      }
      latest := Some(Pool(pk, keys[pk]));
    }
  }

  method NeedUpdate(keys: Keys, queried: seq<string>, w: Window) returns (need: bool)
    requires |queried| == 2
    ensures need == NeedsUpdate(keys, Query(queried[0], queried[1]), w)
  {
    if w.older.None? || w.latest.None? {
      return true;
    }
    var qPools: seq<Pool> := [];
    for i := 0 to 2
      invariant |qPools| == i
      invariant forall j :: 0 <= j < i ==> queried[j] in keys && qPools[j] == ToPool(keys, queried[j])
    {
      if queried[i] !in keys {
        return false;
      }
      qPools := qPools + [Pool(queried[i], keys[queried[i]])];
    }
    return !(qPools[0].address == w.latest.value.address && qPools[1].address == w.older.value.address);
  }

  /** The two caches, and the calls of AddMoveFundItem so far. */
  datatype State = State(pub: Window, jolt: Window, jobs: seq<Job>)

  function RotationJobs(leaving: Pool, staying: Pool, height: int): seq<Job> {
    MoveFundSchedule.RotationItems(leaving.pk, staying.pk, height)
  }

  /** The pool part of the new-block branch. The dereference of a missing pool panics. */
  function OnBlock(keys: Keys, s: State, q: Query, height: int): Checked<State> {
    if s.pub.older.None? then
      Value(s.(pub := Shift(keys, Shift(keys, s.pub, q.latest), q.older),
               jolt := Shift(keys, Shift(keys, s.jolt, q.latest), q.older)))
    else if NeedsUpdate(keys, q, s.pub) then
      if q.latest !in keys || s.jolt.older.None? || s.pub.latest.None? then Panic
      else
        Value(s.(pub := Shift(keys, s.pub, q.latest), jolt := Shift(keys, s.jolt, q.latest),
                 jobs := if s.jolt.older.value.pk == q.latest then s.jobs
                         else s.jobs + RotationJobs(s.jolt.older.value, s.pub.latest.value, height)))
    else Value(s)
  }

  /** The two instances, and the jobs handed to the fund-moving schedule so far. */
  class BridgePools {
    const pi: PoolCache
    const jolt: PoolCache
    var jobs: seq<Job>

    function View(): State
      reads this, pi, jolt
    {
      State(pi.View(), jolt.View(), jobs)
    }

    constructor ()
      ensures View() == State(EMPTY, EMPTY, []) && Consistent(View()) && pi != jolt && fresh(pi) && fresh(jolt)
    {
      pi := new PoolCache();
      jolt := new PoolCache();
      jobs := [];
    }

    method ProcessPools(keys: Keys, poolInfo: seq<string>, latestHeight: int)
      requires |poolInfo| == 2 && pi != jolt && Consistent(View())
      modifies this, pi, jolt
      ensures OnBlock(keys, old(View()), Query(poolInfo[0], poolInfo[1]), latestHeight) == Value(View())
      ensures Consistent(View())
    {
      BlockKeepsConsistent(keys, View(), Query(poolInfo[0], poolInfo[1]), latestHeight);
      var currentPool := pi.View();
      if currentPool.older.None? {
        for i := 0 to 2
          invariant pi.View() == if i == 0 then old(pi.View())
            else if i == 1 then Shift(keys, old(pi.View()), poolInfo[0])
            else Shift(keys, Shift(keys, old(pi.View()), poolInfo[0]), poolInfo[1])
          invariant jolt.View() == if i == 0 then old(jolt.View())
            else if i == 1 then Shift(keys, old(jolt.View()), poolInfo[0])
            else Shift(keys, Shift(keys, old(jolt.View()), poolInfo[0]), poolInfo[1])
          invariant jobs == old(jobs)
        {
          var _ := pi.UpdatePool(keys, poolInfo[i]);
          var _ := jolt.UpdatePool(keys, poolInfo[i]);
        }
        return;
      }
      var need := NeedUpdate(keys, poolInfo, currentPool);
      if need {
        var _ := pi.UpdatePool(keys, poolInfo[0]);
        var previousPool := jolt.UpdatePool(keys, poolInfo[0]);
        if previousPool.value.pk != poolInfo[0] {
          AddMoveFundItem(previousPool.value, latestHeight - MoveFundSchedule.MINCHECKBLOCKGAP + 5, "BSC");
          AddMoveFundItem(previousPool.value, latestHeight - MoveFundSchedule.MINCHECKBLOCKGAP + 5, "ETH");
          var theSecondPool := currentPool.latest.value;
          AddMoveFundItem(theSecondPool, latestHeight - MoveFundSchedule.MINCHECKBLOCKGAP + 10, "BSC");
          AddMoveFundItem(theSecondPool, latestHeight - MoveFundSchedule.MINCHECKBLOCKGAP + 10, "ETH");
          assert jobs == old(jobs) + RotationJobs(previousPool.value, theSecondPool, latestHeight);
        }
      }
    }

    method AddMoveFundItem(pool: Pool, height: int, chainType: string)
      modifies this`jobs
      ensures jobs == old(jobs) + [MoveFundSchedule.Item(pool.pk, height, chainType)]
    {
      jobs := jobs + [MoveFundSchedule.Item(pool.pk, height, chainType)];
    }
  }

  /** What every block keeps, whatever keys the chain reports: the two caches agree, and a cache with
      an older pool has a latest one. It also rules the panic out. */
  ghost predicate Consistent(s: State) {
    s.pub == s.jolt && (s.pub.older.Some? ==> s.pub.latest.Some?)
  }

  lemma BlockKeepsConsistent(keys: Keys, s: State, q: Query, height: int)
    requires Consistent(s)
    ensures OnBlock(keys, s, q, height).Value? && Consistent(OnBlock(keys, s, q, height).value)
  {
  }

  /** From the start both caches hold the answer in the wrong order after the first block; the next
      block puts it right without scheduling any fund move. */
  lemma FirstFill(keys: Keys, q: Query, h1: int, h2: int)
    requires Injective(keys) && ValidQuery(keys, q)
    ensures var first := OnBlock(keys, State(EMPTY, EMPTY, []), q, h1);
            && first == Value(State(WindowOf(keys, Query(q.older, q.latest)), WindowOf(keys, Query(q.older, q.latest)), []))
            && OnBlock(keys, first.value, q, h2) == Value(State(WindowOf(keys, q), WindowOf(keys, q), []))
  {
  }

  /** After a block a full window matches the answer exactly when it did before, or when its latest
      pool is the older one of the answer, i.e. there was one rotation. */
  lemma TracksIff(keys: Keys, s: State, q: Query, height: int)
    requires Injective(keys) && ValidQuery(keys, q) && Consistent(s)
    requires s.pub.older.Some? && (exists r :: ValidQuery(keys, r) && s.pub == WindowOf(keys, r))
    ensures OnBlock(keys, s, q, height).value.pub == WindowOf(keys, q)
            <==> s.pub.latest.value.pk == q.older || s.pub == WindowOf(keys, q)
    ensures OnBlock(keys, s, q, height).value.pub == WindowOf(keys, q)
            ==> !NeedsUpdate(keys, q, OnBlock(keys, s, q, height).value.pub)
  {
  }

  /** A rotation from a matching window schedules the two old pools on each chain and nothing else,
      unless the new latest pool is the one that leaves. */
  lemma RotationSchedules(keys: Keys, s: State, was: Query, now: string, height: int)
    requires Injective(keys) && ValidQuery(keys, was) && now in keys && now != was.latest
    requires Consistent(s) && s.pub == WindowOf(keys, was)
    ensures var t := OnBlock(keys, s, Query(now, was.latest), height).value;
            && t.pub == t.jolt == WindowOf(keys, Query(now, was.latest))
            && t.jobs == if now == was.older then s.jobs
                 else s.jobs + RotationJobs(ToPool(keys, was.older), ToPool(keys, was.latest), height)
  {
  }

  /** Two rotations in a row: the pool that stays in the window at the first one leaves it at the
      second one, so it has jobs of both. */
  lemma SuccessiveRotations(keys: Keys, s: State, a: string, b: string, c: string, d: string, l1: int, l2: int)
    requires Injective(keys) && {a, b, c, d} <= keys.Keys && c != a && c != b && d != b && d != c
    requires Consistent(s) && s.pub == WindowOf(keys, Query(b, a))
    ensures var s1 := OnBlock(keys, s, Query(c, b), l1).value;
            OnBlock(keys, s1, Query(d, c), l2).value.jobs
            == s.jobs + MoveFundSchedule.RotationItems(a, b, l1) + MoveFundSchedule.RotationItems(b, c, l2)
  {
    RotationSchedules(keys, s, Query(b, a), c, l1);
    RotationSchedules(keys, OnBlock(keys, s, Query(c, b), l1).value, Query(c, b), d, l2);
  }

  /** Answers between which at most one rotation happens. */
  ghost predicate OneRotation(p: Query, q: Query) {
    q == p || q.older == p.latest
  }

  ghost function Run(keys: Keys, s: State, queries: seq<Query>, heights: seq<int>): Checked<State>
    requires |queries| == |heights|
    decreases |queries|
  {
    if queries == [] then Value(s)
    else
      match Run(keys, s, queries[..|queries| - 1], heights[..|queries| - 1])
      case Panic => Panic
      case Value(t) => OnBlock(keys, t, queries[|queries| - 1], heights[|queries| - 1])
  }

  /** The windows after the first k blocks of a run match the answer of the last one. */
  ghost predicate TracksAt(keys: Keys, queries: seq<Query>, heights: seq<int>, k: nat)
    requires |queries| == |heights| && 0 < k <= |queries| && forall i :: 0 <= i < |queries| ==> ValidQuery(keys, queries[i])
  {
    var r := Run(keys, State(EMPTY, EMPTY, []), queries[..k], heights[..k]);
    r.Value? && r.value.pub == r.value.jolt == WindowOf(keys, queries[k - 1])
  }

  lemma RunNext(keys: Keys, s: State, queries: seq<Query>, heights: seq<int>, k: nat)
    requires |queries| == |heights| && k < |queries|
    ensures Run(keys, s, queries[..k + 1], heights[..k + 1])
            == match Run(keys, s, queries[..k], heights[..k])
               case Panic => Panic
               case Value(t) => OnBlock(keys, t, queries[k], heights[k])
  {
    assert queries[..k + 1][..k] == queries[..k] && heights[..k + 1][..k] == heights[..k];
  }

  function Swapped(q: Query): Query {
    Query(q.older, q.latest)
  }

  /** What a block answers to a full window is one rotation from the answer that the window stands for. */
  lemma NextTracksIff(keys: Keys, s: State, was: Query, q: Query, height: int)
    requires Injective(keys) && ValidQuery(keys, was) && ValidQuery(keys, q) && Consistent(s) && s.pub == WindowOf(keys, was)
    ensures var r := OnBlock(keys, s, q, height);
            && r.Value? && r.value.pub == r.value.jolt
            && (r.value.pub == WindowOf(keys, q) <==> OneRotation(was, q))
  {
    BlockKeepsConsistent(keys, s, q, height);
    TracksIff(keys, s, q, height);
  }

  /** The second block rights the window exactly when its answer follows the reversed first one. */
  lemma SecondTracksIff(keys: Keys, queries: seq<Query>, heights: seq<int>)
    requires |queries| == |heights| && |queries| >= 2 && Injective(keys)
    requires forall i :: 0 <= i < |queries| ==> ValidQuery(keys, queries[i])
    ensures TracksAt(keys, queries, heights, 2) <==> OneRotation(Swapped(queries[0]), queries[1])
  {
    var start := State(EMPTY, EMPTY, []);
    RunNext(keys, start, queries, heights, 0);
    RunNext(keys, start, queries, heights, 1);
    assert queries[..0] == [] && Run(keys, start, queries[..0], heights[..0]) == Value(start);
    FirstFill(keys, queries[0], heights[0], heights[1]);
    NextTracksIff(keys, OnBlock(keys, start, queries[0], heights[0]).value, Swapped(queries[0]), queries[1], heights[1]);
  }

  lemma LaterTracksIff(keys: Keys, queries: seq<Query>, heights: seq<int>, k: nat)
    requires |queries| == |heights| && 2 <= k < |queries| && Injective(keys)
    requires forall i :: 0 <= i < |queries| ==> ValidQuery(keys, queries[i])
    requires TracksAt(keys, queries, heights, k)
    ensures TracksAt(keys, queries, heights, k + 1) <==> OneRotation(queries[k - 1], queries[k])
  {
    var start := State(EMPTY, EMPTY, []);
    RunNext(keys, start, queries, heights, k);
    NextTracksIff(keys, Run(keys, start, queries[..k], heights[..k]).value, queries[k - 1], queries[k], heights[k]);
  }

  ghost predicate Trackable(queries: seq<Query>, n: nat)
    requires 2 <= n <= |queries|
  {
    OneRotation(Swapped(queries[0]), queries[1]) && forall i :: 1 <= i < n - 1 ==> OneRotation(queries[i], queries[i + 1])
  }

  lemma TrackableNext(queries: seq<Query>, n: nat)
    requires 2 <= n < |queries|
    ensures Trackable(queries, n + 1) <==> Trackable(queries, n) && OneRotation(queries[n - 1], queries[n])
  {
  }

  /** The windows match after each of the blocks 2 to n. */
  ghost predicate AllTrack(keys: Keys, queries: seq<Query>, heights: seq<int>, n: nat)
    requires |queries| == |heights| && n <= |queries| && forall i :: 0 <= i < |queries| ==> ValidQuery(keys, queries[i])
  {
    forall k :: 2 <= k <= n ==> TracksAt(keys, queries, heights, k)
  }

  lemma {:induction false} TracksUpTo(keys: Keys, queries: seq<Query>, heights: seq<int>, n: nat)
    requires |queries| == |heights| && 2 <= n <= |queries| && Injective(keys)
    requires forall i :: 0 <= i < |queries| ==> ValidQuery(keys, queries[i])
    ensures AllTrack(keys, queries, heights, n) <==> Trackable(queries, n)
  {
    if n == 2 {
      SecondTracksIff(keys, queries, heights);
    } else {
      TracksUpTo(keys, queries, heights, n - 1);
      TrackableNext(queries, n - 1);
      if TracksAt(keys, queries, heights, n - 1) {
        LaterTracksIff(keys, queries, heights, n - 1);
      }
    }
  }

  /** The pools of a whole run: both windows match the chain after every block from the second on exactly
      when the answer rotates at most once from each block to the next, and the second answer follows
      the first one as the first block stored it, with its pools reversed. */
  lemma WindowTracksIff(keys: Keys, queries: seq<Query>, heights: seq<int>)
    requires |queries| == |heights| && |queries| >= 2 && Injective(keys)
    requires forall i :: 0 <= i < |queries| ==> ValidQuery(keys, queries[i])
    ensures AllTrack(keys, queries, heights, |queries|) <==> Trackable(queries, |queries|)
  {
    TracksUpTo(keys, queries, heights, |queries|);
  }

  /** In particular when the answer does not change between the first two blocks. */
  lemma WindowTracksChain(keys: Keys, queries: seq<Query>, heights: seq<int>)
    requires |queries| == |heights| && |queries| >= 2 && Injective(keys)
    requires forall i :: 0 <= i < |queries| ==> ValidQuery(keys, queries[i])
    requires queries[0] == queries[1]
    requires forall i :: 0 <= i < |queries| - 1 ==> OneRotation(queries[i], queries[i + 1])
    ensures var r := Run(keys, State(EMPTY, EMPTY, []), queries, heights);
            r.Value? && r.value.pub == r.value.jolt == WindowOf(keys, queries[|queries| - 1])
  {
    WindowTracksIff(keys, queries, heights);
    assert TracksAt(keys, queries, heights, |queries|);
    assert queries[..|queries|] == queries && heights[..|queries|] == heights;
  }

  /** A rotation right after the first block is not tracked: the window skips a pool, and the block
      after that fills both slots with the new pool and schedules its own funds to be moved. */
  lemma RotationAfterFirstFill(keys: Keys, a: string, b: string, c: string, h: int)
    requires Injective(keys) && a in keys && b in keys && c in keys && a != b && a != c && b != c
    ensures var s1 := OnBlock(keys, State(EMPTY, EMPTY, []), Query(b, a), h).value;
            var s2 := OnBlock(keys, s1, Query(c, b), h + 1).value;
            var s3 := OnBlock(keys, s2, Query(c, b), h + 2).value;
            && s2.pub == WindowOf(keys, Query(c, a))
            && s3.pub == WindowOf(keys, Query(c, c))
            && MoveFundSchedule.Item(c, h + 2 - 20, "BSC") in s3.jobs
  {
    var s1 := OnBlock(keys, State(EMPTY, EMPTY, []), Query(b, a), h).value;
    var s2 := OnBlock(keys, s1, Query(c, b), h + 1).value;
    var s3 := OnBlock(keys, s2, Query(c, b), h + 2).value;
    assert s3.jobs == s2.jobs + RotationJobs(ToPool(keys, a), ToPool(keys, c), h + 2);
    assert s3.jobs[|s2.jobs| + 2] == MoveFundSchedule.Item(c, h + 2 - 20, "BSC");
  }
}
