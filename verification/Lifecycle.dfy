/** The books of one direction of the bridge: every request this node ever observed, from the retry
    map through the batch channel and the workers to the chain or the on-hold queue, across shutdown
    and restart. dropped collects what leaves the books without being settled. */
module Lifecycle {
  import opened Common
  import opened BatchOrder
  import opened KeyedStore

  /** A request object: identity, map key (Index), and target chain. */
  datatype Req = Req(uid: nat, key: string, chainType: string)

  type Pending = map<string, Req>

  datatype State = State(
    inbound: bool,                // direction of these books
    running: bool,
    added: set<Req>,              // everything ever observed
    pending: Pending,             // the retry map
    channel: seq<seq<Req>>,       // batches fed but not taken
    working: multiset<Req>,       // in processInbound or processEachOutBound
    onHold: seq<Req>,
    rechecking: multiset<Req>,    // dumped from the on-hold queue, being checked
    stored: seq<Req>,             // saved by a stopped node
    settled: multiset<Req>,
    dropped: multiset<Req>)

  /** Why a worker lets go of an item that is neither settled nor on hold. */
  datatype Exit =
    | EmptyRecord                 // outbound: the record query succeeded without a transaction
    | ConnectionFailed            // inbound: no connection to the Joltify node
    | SharedHash                  // inbound: another item of the batch stands for its hash

  datatype Verdict = Settle | PutOnHold | LetGo(exit: Exit)

  datatype Event =
    | Observe(req: Req)                                       // a new request goes to the map
    | Feed(n: nat, chainType: string, keys: seq<string>, ok: bool)
    | Take
    | Finish(req: Req, verdict: Verdict)
    | Dump
    | Recheck(req: Req, found: bool)
    | Shutdown(saved: seq<Req>)
    | Restart

  function Init(inbound: bool): State {
    State(inbound, true, {}, map[], [], multiset{}, [], multiset{}, [], multiset{}, multiset{})
  }

  /** The keys a batch is chosen from: all of them inbound, those of one chain outbound. */
  function Candidates(s: State, chainType: string): set<string> {
    set k | k in s.pending && (s.inbound || s.pending[k].chainType == chainType)
  }

  function Batch(m: Pending, keys: seq<string>): (r: seq<Req>)
    requires forall i :: 0 <= i < |keys| ==> keys[i] in m
    ensures |r| == |keys| && forall i :: 0 <= i < |r| ==> r[i] == m[keys[i]]
  {
    seq(|keys|, i requires 0 <= i < |keys| => m[keys[i]])
  }

  function Flatten(channel: seq<seq<Req>>): seq<Req> {
    if channel == [] then [] else channel[0] + Flatten(channel[1..])
  }

  function Entry(r: Req): (string, Req) {
    (r.key, r)
  }

  function Entries(rs: seq<Req>): (s: seq<(string, Req)>)
    ensures |s| == |rs| && forall i :: 0 <= i < |s| ==> s[i] == Entry(rs[i])
  {
    seq(|rs|, i requires 0 <= i < |rs| => Entry(rs[i]))
  }

  /** What storing r pushes out of the map. */
  function Overwritten(m: Pending, r: Req): multiset<Req> {
    if r.key in m then multiset{m[r.key]} else multiset{}
  }

  function PutAll(m: Pending, rs: seq<Req>): Pending
    decreases rs
  {
    if rs == [] then m else PutAll(m[rs[0].key := rs[0]], rs[1..])
  }

  function OverwrittenAll(m: Pending, rs: seq<Req>): multiset<Req>
    decreases rs
  {
    if rs == [] then multiset{} else Overwritten(m, rs[0]) + OverwrittenAll(m[rs[0].key := rs[0]], rs[1..])
  }

  predicate Allowed(inbound: bool, v: Verdict) {
    v.LetGo? ==> (v.exit.EmptyRecord? <==> !inbound)
  }

  ghost predicate Enabled(s: State, e: Event) {
    match e
    case Observe(r) => s.running && r !in s.added
    case Feed(n, chainType, keys, ok) =>
      s.running && IsBatch(Candidates(s, chainType), n, keys) && (s.inbound ==> ok)
    case Take => s.running && s.channel != []
    case Finish(r, v) => s.running && r in s.working && Allowed(s.inbound, v)
    case Dump => s.running
    case Recheck(r, _) => s.running && r in s.rechecking
    case Shutdown(saved) =>
      && s.running && s.working == multiset{} && s.rechecking == multiset{}
      && Enumerates(Entries(saved), PutAll(s.pending, s.onHold))
    case Restart => !s.running
  }

  ghost function Apply(s: State, e: Event): State
    requires Enabled(s, e)
  {
    match e
    case Observe(r) =>
      s.(added := s.added + {r}, pending := s.pending[r.key := r], dropped := s.dropped + Overwritten(s.pending, r))
    case Feed(_, chainType, keys, ok) =>
      assert forall i :: 0 <= i < |keys| ==> keys[i] in Elems(keys);
      var batch := Batch(s.pending, keys);
      var popped := s.(pending := s.pending - Elems(keys));
      if ok then popped.(channel := s.channel + [batch]) else popped.(dropped := s.dropped + multiset(batch))
    case Take => s.(channel := s.channel[1..], working := s.working + multiset(s.channel[0]))
    case Finish(r, v) =>
      var t := s.(working := s.working - multiset{r});
      (match v
       case Settle => t.(settled := s.settled + multiset{r})
       case PutOnHold => t.(onHold := s.onHold + [r])
       case LetGo(_) => t.(dropped := s.dropped + multiset{r}))
    case Dump => s.(onHold := [], rechecking := s.rechecking + multiset(s.onHold))
    case Recheck(r, found) =>
      var t := s.(rechecking := s.rechecking - multiset{r});
      if found then t.(settled := s.settled + multiset{r})
      else t.(pending := s.pending[r.key := r], dropped := s.dropped + Overwritten(s.pending, r))
    case Shutdown(saved) =>
      s.(running := false, pending := map[], channel := [], onHold := [], stored := saved,
         dropped := s.dropped + multiset(Flatten(s.channel)) + OverwrittenAll(s.pending, s.onHold))
    case Restart =>
      s.(running := true, pending := PutAll(map[], s.stored), stored := [],
         dropped := s.dropped + OverwrittenAll(map[], s.stored))
  }

  // ----- accounting -----

  function InMap(m: Pending, r: Req): nat {
    if r.key in m && m[r.key] == r then 1 else 0
  }

  /** In how many places of the books a request is, and how often. */
  function Places(s: State, r: Req): nat {
    InMap(s.pending, r) + multiset(Flatten(s.channel))[r] + s.working[r] + multiset(s.onHold)[r]
    + s.rechecking[r] + multiset(s.stored)[r] + s.settled[r] + s.dropped[r]
  }

  ghost predicate Keyed(m: Pending) {
    forall k :: k in m ==> m[k].key == k
  }

  ghost predicate Inv(s: State) {
    && Keyed(s.pending)
    && DistinctKeys(Entries(s.stored))
    && (s.running ==> s.stored == [])
    && (!s.running ==> s.pending == map[])
    && forall r :: Places(s, r) == if r in s.added then 1 else 0
  }

  lemma PutCount(m: Pending, r: Req, x: Req)
    requires Keyed(m)
    ensures Keyed(m[r.key := r])
    ensures InMap(m[r.key := r], x) + Overwritten(m, r)[x] == InMap(m, x) + multiset{r}[x]
  {
  }

  lemma {:induction false} PutAllCount(m: Pending, rs: seq<Req>, x: Req)
    requires Keyed(m)
    ensures Keyed(PutAll(m, rs))
    ensures InMap(PutAll(m, rs), x) + OverwrittenAll(m, rs)[x] == InMap(m, x) + multiset(rs)[x]
    decreases rs
  {
    if rs != [] {
      PutCount(m, rs[0], x);
      PutAllCount(m[rs[0].key := rs[0]], rs[1..], x);
      assert rs == [rs[0]] + rs[1..];
      assert multiset(rs) == multiset{rs[0]} + multiset(rs[1..]);
    }
  }

  lemma {:induction false} PopCount(m: Pending, keys: seq<string>, x: Req)
    requires Keyed(m) && NoDup(keys) && forall i :: 0 <= i < |keys| ==> keys[i] in m
    ensures InMap(m - Elems(keys), x) + multiset(Batch(m, keys))[x] == InMap(m, x)
  {
    if keys == [] {
      assert m - Elems(keys) == m;
    } else {
      var init, last := keys[..|keys| - 1], keys[|keys| - 1];
      assert keys == init + [last];
      PopCount(m, init, x);
      assert Batch(m, keys) == Batch(m, init) + [m[last]];
      assert last !in init;
      assert m - Elems(keys) == (m - Elems(init)) - {last};
    }
  }

  lemma {:induction false} FlattenAppend(channel: seq<seq<Req>>, batch: seq<Req>)
    ensures Flatten(channel + [batch]) == Flatten(channel) + batch
  {
    if channel == [] {
      assert channel + [batch] == [batch];
      assert Flatten([batch]) == batch + Flatten([]);
    } else {
      assert (channel + [batch])[1..] == channel[1..] + [batch];
      FlattenAppend(channel[1..], batch);
    }
  }

  /** Listing a map counts each of its requests once. */
  lemma EnumeratedCount(saved: seq<Req>, m: Pending, x: Req)
    requires Keyed(m) && Enumerates(Entries(saved), m)
    ensures multiset(saved)[x] == InMap(m, x)
  {
    var s := Entries(saved);
    assert forall i :: 0 <= i < |saved| ==> s[i] in s;
    forall i, j | 0 <= i < j < |saved|
      ensures saved[i] != saved[j]
    {
      assert s[i].0 != s[j].0;
    }
    NoDupCounts(saved);
    if InMap(m, x) == 1 {
      var p :| p in s && p.0 == x.key;
      var i :| 0 <= i < |s| && s[i] == p;
      assert saved[i] == x;
    }
    if x in saved {
      var i :| 0 <= i < |saved| && saved[i] == x;
      assert s[i] == (x.key, x);
    }
  }

  lemma {:induction false} PutAllDistinct(m: Pending, rs: seq<Req>)
    requires DistinctKeys(Entries(rs)) && forall r :: r in rs ==> r.key !in m
    ensures OverwrittenAll(m, rs) == multiset{}
    decreases rs
  {
    if rs != [] {
      var tail := rs[1..];
      assert forall i :: 0 <= i < |tail| ==> Entries(tail)[i] == Entries(rs)[i + 1];
      forall r | r in tail
        ensures r.key !in m[rs[0].key := rs[0]]
      {
        var i :| 0 <= i < |tail| && tail[i] == r;
        assert Entries(rs)[0].0 != Entries(rs)[i + 1].0;
      }
      PutAllDistinct(m[rs[0].key := rs[0]], tail);
    }
  }

  lemma {:induction false} NothingOverwrittenIsNew(m: Pending, rs: seq<Req>)
    requires OverwrittenAll(m, rs) == multiset{}
    ensures forall i :: 0 <= i < |rs| ==> rs[i].key !in m
    ensures forall i, j :: 0 <= i < j < |rs| ==> rs[i].key != rs[j].key
    decreases rs
  {
    if rs != [] {
      var m', tail := m[rs[0].key := rs[0]], rs[1..];
      assert |Overwritten(m, rs[0])| + |OverwrittenAll(m', tail)| == |OverwrittenAll(m, rs)|;
      NothingOverwrittenIsNew(m', tail);
      forall i, j | 0 <= i < j < |rs|
        ensures rs[i].key != rs[j].key
      {
        assert tail[j - 1].key !in m';
        if i > 0 {
          assert tail[i - 1].key != tail[j - 1].key;
        }
      }
      forall i | 0 <= i < |rs|
        ensures rs[i].key !in m
      {
        if i > 0 {
          assert tail[i - 1].key !in m';
        }
      }
    }
  }

  /** Storing a list overwrites nothing exactly when its indices are distinct and new to the map. */
  lemma OverwritesNothingIff(m: Pending, rs: seq<Req>)
    ensures OverwrittenAll(m, rs) == multiset{}
            <==> DistinctKeys(Entries(rs)) && forall r :: r in rs ==> r.key !in m
  {
    if OverwrittenAll(m, rs) == multiset{} {
      NothingOverwrittenIsNew(m, rs);
    } else if DistinctKeys(Entries(rs)) && forall r :: r in rs ==> r.key !in m {
      PutAllDistinct(m, rs);
    }
  }

  lemma FeedKeepsPlaces(s: State, e: Event, x: Req)
    requires Inv(s) && Enabled(s, e) && e.Feed?
    ensures Places(Apply(s, e), x) == Places(s, x)
  {
    assert forall i :: 0 <= i < |e.keys| ==> e.keys[i] in Elems(e.keys);
    PopCount(s.pending, e.keys, x);
    FlattenAppend(s.channel, Batch(s.pending, e.keys));
  }

  lemma TakeKeepsPlaces(s: State, x: Req)
    requires Inv(s) && Enabled(s, Take)
    ensures Places(Apply(s, Take), x) == Places(s, x)
  {
    assert Flatten(s.channel) == s.channel[0] + Flatten(s.channel[1..]);
  }

  /** Moving one request between places. */
  lemma MoveOne(from: multiset<Req>, r: Req, x: Req)
    requires r in from
    ensures (from - multiset{r})[x] + multiset{r}[x] == from[x]
  {
  }

  lemma FinishKeepsPlaces(s: State, r: Req, v: Verdict, x: Req)
    requires Enabled(s, Finish(r, v))
    ensures Places(Apply(s, Finish(r, v)), x) == Places(s, x)
  {
    MoveOne(s.working, r, x);
    match v
    case Settle => assert (s.settled + multiset{r})[x] == s.settled[x] + multiset{r}[x];
    case PutOnHold => assert multiset(s.onHold + [r])[x] == multiset(s.onHold)[x] + multiset{r}[x];
    case LetGo(_) => assert (s.dropped + multiset{r})[x] == s.dropped[x] + multiset{r}[x];
  }

  lemma DumpKeepsPlaces(s: State, x: Req)
    requires Enabled(s, Dump)
    ensures Places(Apply(s, Dump), x) == Places(s, x)
  {
  }

  lemma RecheckKeepsPlaces(s: State, r: Req, found: bool, x: Req)
    requires Keyed(s.pending) && Enabled(s, Recheck(r, found))
    ensures Places(Apply(s, Recheck(r, found)), x) == Places(s, x)
  {
    MoveOne(s.rechecking, r, x);
    PutCount(s.pending, r, x);
    if found {
      assert (s.settled + multiset{r})[x] == s.settled[x] + multiset{r}[x];
    }
  }

  lemma ObservePlaces(s: State, r: Req, x: Req)
    requires Keyed(s.pending) && Enabled(s, Observe(r))
    ensures Places(Apply(s, Observe(r)), x) == Places(s, x) + multiset{r}[x]
  {
    PutCount(s.pending, r, x);
  }

  lemma ShutdownKeepsPlaces(s: State, saved: seq<Req>, x: Req)
    requires Inv(s) && Enabled(s, Shutdown(saved))
    ensures Places(Apply(s, Shutdown(saved)), x) == Places(s, x)
  {
    PutAllCount(s.pending, s.onHold, x);
    EnumeratedCount(saved, PutAll(s.pending, s.onHold), x);
  }

  lemma RestartKeepsPlaces(s: State, x: Req)
    requires Inv(s) && Enabled(s, Restart)
    ensures Places(Apply(s, Restart), x) == Places(s, x)
  {
    PutAllCount(map[], s.stored, x);
  }

  /** What a step brings into the books: an observed request, and nothing else. */
  function Brings(e: Event, x: Req): nat {
    if e.Observe? && e.req == x then 1 else 0
  }

  lemma PlacesAfter(s: State, e: Event, x: Req)
    requires Inv(s) && Enabled(s, e)
    ensures Places(Apply(s, e), x) == Places(s, x) + Brings(e, x)
  {
    match e
    case Observe(r) => ObservePlaces(s, r, x);
    case Feed(_, _, _, _) => FeedKeepsPlaces(s, e, x);
    case Take => TakeKeepsPlaces(s, x);
    case Finish(r, v) => FinishKeepsPlaces(s, r, v, x);
    case Dump => DumpKeepsPlaces(s, x);
    case Recheck(r, found) => RecheckKeepsPlaces(s, r, found, x);
    case Shutdown(saved) => ShutdownKeepsPlaces(s, saved, x);
    case Restart => RestartKeepsPlaces(s, x);
  }

  lemma AddedAfter(s: State, e: Event, x: Req)
    requires Enabled(s, e)
    ensures (if x in Apply(s, e).added then 1 else 0) == (if x in s.added then 1 else 0) + Brings(e, x)
  {
  }

  lemma {:induction false} PutAllKeyed(m: Pending, rs: seq<Req>)
    requires Keyed(m)
    ensures Keyed(PutAll(m, rs))
    decreases rs
  {
    if rs != [] {
      PutAllKeyed(m[rs[0].key := rs[0]], rs[1..]);
    }
  }

  lemma ShapeAfter(s: State, e: Event)
    requires Inv(s) && Enabled(s, e)
    ensures var t := Apply(s, e);
            && Keyed(t.pending) && DistinctKeys(Entries(t.stored))
            && (t.running ==> t.stored == []) && (!t.running ==> t.pending == map[])
  {
    match e
    case Observe(r) => PutCount(s.pending, r, r);
    case Recheck(r, _) => PutCount(s.pending, r, r);
    case Restart => PutAllKeyed(map[], s.stored);
    case _ =>
  }

  lemma StepKeepsInv(s: State, e: Event)
    requires Inv(s) && Enabled(s, e)
    ensures Inv(Apply(s, e))
  {
    ShapeAfter(s, e);
    forall x: Req
      ensures Places(Apply(s, e), x) == if x in Apply(s, e).added then 1 else 0
    {
      PlacesAfter(s, e, x);
      AddedAfter(s, e, x);
    }
  }

  ghost predicate ValidRun(s: State, events: seq<Event>)
    decreases events
  {
    events == [] || (Enabled(s, events[0]) && ValidRun(Apply(s, events[0]), events[1..]))
  }

  ghost function After(s: State, events: seq<Event>): State
    requires ValidRun(s, events)
    decreases events
  {
    if events == [] then s else After(Apply(s, events[0]), events[1..])
  }

  lemma {:induction false} RunKeepsInv(s: State, events: seq<Event>)
    requires Inv(s) && ValidRun(s, events)
    ensures Inv(After(s, events))
    decreases events
  {
    if events != [] {
      StepKeepsInv(s, events[0]);
      RunKeepsInv(Apply(s, events[0]), events[1..]);
    }
  }

  /** Whole-run accounting: after any run, restarts included, every request ever observed is in exactly
      one place of the books, once, and nothing else is in them. */
  lemma EveryRequestIsInOnePlace(inbound: bool, events: seq<Event>, r: Req)
    requires ValidRun(Init(inbound), events)
    ensures Places(After(Init(inbound), events), r) == if r in After(Init(inbound), events).added then 1 else 0
  {
    RunKeepsInv(Init(inbound), events);
  }

  // ----- where requests are dropped -----

  /** The steps that may drop requests. */
  ghost predicate IsExit(s: State, e: Event) {
    match e
    case Observe(r) => r.key in s.pending                       // overwritten by an equal index
    case Recheck(r, found) => !found && r.key in s.pending      // likewise, coming back from on-hold
    case Feed(_, _, _, ok) => !ok                               // FeedTx failed after the pop
    case Finish(_, v) => v.LetGo?
    case Shutdown(_) =>                                         // queued batches, or equal indices on hold
      s.channel != [] || !DistinctKeys(Entries(s.onHold)) || exists r :: r in s.onHold && r.key in s.pending
    case _ => false
  }

  /** Nothing is dropped anywhere else; a restart, in particular, loses nothing and brings back exactly
      what was saved. */
  lemma DropsOnlyAtExits(s: State, e: Event)
    requires Inv(s) && Enabled(s, e) && !IsExit(s, e)
    ensures Apply(s, e).dropped == s.dropped
  {
    if e.Restart? {
      PutAllDistinct(map[], s.stored);
    } else if e.Shutdown? {
      PutAllDistinct(s.pending, s.onHold);
    }
  }

  /** Shutdown with an empty channel and distinct indices, and the restart after it, bring back the map
      with the on-hold items added to it. */
  lemma ShutdownRestart(s: State, saved: seq<Req>)
    requires Inv(s) && Enabled(s, Shutdown(saved)) && !IsExit(s, Shutdown(saved))
    ensures var t := Apply(Apply(s, Shutdown(saved)), Restart);
            && t.pending == PutAll(s.pending, s.onHold) && t.dropped == s.dropped
            && forall x :: InMap(t.pending, x) == InMap(s.pending, x) + multiset(s.onHold)[x]
  {
    var stopped := Apply(s, Shutdown(saved));
    PutAllDistinct(s.pending, s.onHold);
    StepKeepsInv(s, Shutdown(saved));
    DropsOnlyAtExits(s, Shutdown(saved));
    DropsOnlyAtExits(stopped, Restart);
    PutAllIsStoreAll(map[], saved);
    Rebuild(PutAll(s.pending, s.onHold), Entries(saved));
    forall x
      ensures InMap(PutAll(s.pending, s.onHold), x) == InMap(s.pending, x) + multiset(s.onHold)[x]
    {
      PutAllCount(s.pending, s.onHold, x);
    }
  }

  lemma {:induction false} PutAllAppend(m: Pending, rs: seq<Req>, r: Req)
    ensures PutAll(m, rs + [r]) == PutAll(m, rs)[r.key := r]
    decreases rs
  {
    if rs == [] {
      assert rs + [r] == [r];
      assert PutAll(m, [r]) == PutAll(m[r.key := r], [r][1..]);
    } else {
      assert (rs + [r])[1..] == rs[1..] + [r];
      PutAllAppend(m[rs[0].key := rs[0]], rs[1..], r);
    }
  }

  lemma {:induction false} PutAllIsStoreAll(m: Pending, rs: seq<Req>)
    ensures PutAll(m, rs) == StoreAll(m, Entries(rs))
  {
    if rs != [] {
      var init, last := rs[..|rs| - 1], rs[|rs| - 1];
      assert rs == init + [last];
      PutAllAppend(m, init, last);
      PutAllIsStoreAll(m, init);
      assert Entries(rs)[..|rs| - 1] == Entries(init);
    }
  }

  /** A run without exits drops nothing: everything observed is still on its way or settled. */
  lemma {:induction false} NoExitNoLoss(s: State, events: seq<Event>)
    requires Inv(s) && ValidRun(s, events) && NoExits(s, events)
    ensures After(s, events).dropped == s.dropped
    decreases events
  {
    if events != [] {
      StepKeepsInv(s, events[0]);
      DropsOnlyAtExits(s, events[0]);
      NoExitNoLoss(Apply(s, events[0]), events[1..]);
    }
  }

  ghost predicate NoExits(s: State, events: seq<Event>)
    requires ValidRun(s, events)
    decreases events
  {
    events == [] || (!IsExit(s, events[0]) && NoExits(Apply(s, events[0]), events[1..]))
  }
}
