/** The schedule of fund moves: a map from "height:chain" to jobs (pubchain/move_fund.go), over the
    life of the jobs of a rotation. */
module MoveFundSchedule {
  import opened Common
  import opened DecimalKeys
  import opened KeyedStore

  const MINCHECKBLOCKGAP: int := 30
  const RETRYGAP: int := 3
  const MAXINT64: int := 0x7FFF_FFFF_FFFF_FFFF

  /** A pool is named by its key. */
  datatype Item = Item(pool: string, height: int, chainType: string)

  type Schedule = map<string, Item>

  function ItemKey(height: int, chainType: string): string {
    FormatInt(height) + ":" + chainType
  }

  function KeyOf(item: Item): string {
    ItemKey(item.height, item.chainType)
  }

  function Added(s: Schedule, item: Item): Schedule {
    s[KeyOf(item) := item]
  }

  /** Every job is stored under the key of its own height and chain. */
  ghost predicate Keyed(s: Schedule) {
    forall k :: k in s ==> KeyOf(s[k]) == k
  }

  lemma FormatIntInjective(a: int, b: int)
    requires FormatInt(a) == FormatInt(b)
    ensures a == b
  {
    DecimalCanonical(Abs(a));
    DecimalCanonical(Abs(b));
    assert 0 <= DigitValue(Decimal(Abs(a))[0]) && 0 <= DigitValue(Decimal(Abs(b))[0]);
    if a < 0 {
      assert FormatInt(a)[1..] == Decimal(-a);
      assert FormatInt(b)[0] == '-';
      assert FormatInt(b)[1..] == Decimal(-b);
    } else {
      assert FormatInt(a)[0] != '-';
    }
  }

  lemma NoColon(a: int)
    ensures ':' !in FormatInt(a)
  {
    assert forall i :: 0 <= i < |Decimal(Abs(a))| ==> 0 <= DigitValue(Decimal(Abs(a))[i]) < 10;
  }

  lemma SplitAtColon(a: string, b: string, c: string, d: string)
    requires ':' !in a && ':' !in c && a + ":" + b == c + ":" + d
    ensures a == c && b == d
  {
    var s := a + ":" + b;
    assert forall i :: 0 <= i < |a| ==> s[i] == a[i] && s[i] != ':';
    assert forall i :: 0 <= i < |c| ==> s[i] == c[i] && s[i] != ':';
    assert s[|a|] == ':' && s[|c|] == ':';
    assert s[..|a|] == a && s[..|c|] == c;
    assert s[|a| + 1..] == b && s[|c| + 1..] == d;
  }

  /** A key determines its height and chain, for chain names of any form. */
  lemma ItemKeyInjective(h1: int, c1: string, h2: int, c2: string)
    ensures ItemKey(h1, c1) == ItemKey(h2, c2) <==> h1 == h2 && c1 == c2
  {
    if ItemKey(h1, c1) == ItemKey(h2, c2) {
      NoColon(h1);
      NoColon(h2);
      SplitAtColon(FormatInt(h1), c1, FormatInt(h2), c2);
      FormatIntInjective(h1, h2);
    }
  }

  /** k is the job of its chain with the smallest height, and old enough. */
  ghost predicate IsDue(s: Schedule, k: string, current: int) {
    && k in s && current - s[k].height > MINCHECKBLOCKGAP
    && forall l :: l in s && s[l].chainType == s[k].chainType ==> s[k].height <= s[l].height
  }

  function KeyedItems(items: seq<Item>): (r: seq<(string, Item)>)
    ensures |r| == |items| && forall i :: 0 <= i < |r| ==> r[i] == (KeyOf(items[i]), items[i])
  {
    seq(|items|, i requires 0 <= i < |items| => (KeyOf(items[i]), items[i]))
  }

  class MoveFundQueue {
    var items: Schedule

    ghost predicate Valid()
      reads this
    {
      Keyed(items) && forall k :: k in items ==> items[k].height <= MAXINT64
    }

    constructor ()
      ensures Valid() && items == map[]
    {
      items := map[];
    }

    method AddMoveFundItem(pool: string, height: int, chainType: string)
      requires Valid() && height <= MAXINT64
      modifies this
      ensures Valid() && items == Added(old(items), Item(pool, height, chainType))
    {
      var item := Item(pool, height, chainType);
      items := items[ItemKey(height, chainType) := item];
    }

    /** Lists the jobs in any order. */
    method ExportMoveFundItems() returns (data: seq<Item>)
      requires Valid()
      ensures Enumerates(KeyedItems(data), items)
    {
      data := [];
      ghost var keys: seq<string> := [];
      var rest := items.Keys;
      while rest != {}
        invariant rest <= items.Keys && NoDup(keys) && Elems(keys) == items.Keys - rest
        invariant |data| == |keys| && forall i :: 0 <= i < |keys| ==> keys[i] in Elems(keys) && data[i] == items[keys[i]]
      {
        var k :| k in rest;
        rest := rest - {k};
        assert k !in Elems(keys);
        assert Elems(keys + [k]) == Elems(keys) + {k};
        keys := keys + [k];
        data := data + [items[k]];
      }
      ListedIsEnumerated(items, keys, data);
    }

    /** Finds the smallest height of the chain in any order of iteration, and takes its job when it is
        more than 30 blocks old. The job is always found under the rebuilt key. */
    method PopMoveFundItemAfterBlock(currentBlockHeight: int, chainType: string) returns (r: Option<Item>)
      requires Valid() && currentBlockHeight <= MAXINT64
      modifies this
      ensures Valid()
      ensures r.None? ==> items == old(items)
      ensures r.None? <==> forall k :: k in old(items) && old(items)[k].chainType == chainType
                             ==> currentBlockHeight - old(items)[k].height <= MINCHECKBLOCKGAP
      ensures r.Some? ==>
        && r.value.chainType == chainType && IsDue(old(items), KeyOf(r.value), currentBlockHeight)
        && old(items)[KeyOf(r.value)] == r.value && items == old(items) - {KeyOf(r.value)}
    {
      var min := MAXINT64;
      var rest := items.Keys;
      ghost var at: Option<string> := None;
      while rest != {}
        invariant rest <= items.Keys && items == old(items) && Valid()
        invariant forall k :: k in items && k !in rest && items[k].chainType == chainType ==> min <= items[k].height
        invariant min < MAXINT64 ==>
          at.Some? && at.value in items && items[at.value].chainType == chainType && items[at.value].height == min
      {
        var k :| k in rest;
        rest := rest - {k};
        if items[k].height <= min && items[k].chainType == chainType {
          min := items[k].height;
          at := Some(k);
        }
      }
      if min < MAXINT64 && currentBlockHeight - min > MINCHECKBLOCKGAP {
        var index := ItemKey(min, chainType);
        assert index == at.value;
        r := Some(items[index]);
        items := items - {index};
      } else {
        r := None;
      }
    }
  }

  lemma ListedIsEnumerated(items: Schedule, keys: seq<string>, data: seq<Item>)
    requires Keyed(items) && NoDup(keys) && Elems(keys) == items.Keys && |data| == |keys|
    requires forall i :: 0 <= i < |keys| ==> keys[i] in Elems(keys) && data[i] == items[keys[i]]
    ensures Enumerates(KeyedItems(data), items)
  {
    var s := KeyedItems(data);
    assert forall i :: 0 <= i < |s| ==> s[i] == (keys[i], items[keys[i]]);
    forall k | k in items
      ensures exists p :: p in s && p.0 == k
    {
      assert k in Elems(keys);
      var i :| 0 <= i < |keys| && keys[i] == k;
      assert s[i] in s;
    }
  }

  // ----- the life of the jobs of a rotation -----

  /** A job is a pool on a chain; it is scheduled, in the hands of MoveFound, or done. */
  datatype State = State(schedule: Schedule, inHand: Option<Item>, done: multiset<(string, string)>)

  datatype Event =
    | Pop(key: string, current: int)
    | Done                              // MoveFound did not add the job again
    | Retry(gap: int)                   // it was added again, at the same height or 3 blocks later
    | Restart(saved: seq<Item>)         // exported in some order, and loaded into an empty schedule

  predicate RetryGap(gap: int) {
    gap == 0 || gap == RETRYGAP
  }

  ghost predicate Enabled(s: State, e: Event) {
    match e
    case Pop(key, current) => s.inHand.None? && IsDue(s.schedule, key, current)
    case Done => s.inHand.Some?
    case Retry(gap) => s.inHand.Some? && RetryGap(gap)
    case Restart(saved) => s.inHand.None? && Enumerates(KeyedItems(saved), s.schedule)
  }

  function JobOf(item: Item): (string, string) {
    (item.pool, item.chainType)
  }

  ghost function Apply(s: State, e: Event): State
    requires Enabled(s, e)
  {
    match e
    case Pop(key, _) => State(s.schedule - {key}, Some(s.schedule[key]), s.done)
    case Done => State(s.schedule, None, s.done + multiset{JobOf(s.inHand.value)})
    case Retry(gap) =>
      var item := s.inHand.value;
      State(Added(s.schedule, item.(height := item.height + gap)), None, s.done)
    case Restart(saved) => s.(schedule := StoreAll(map[], KeyedItems(saved)))
  }

  ghost predicate ValidRun(s: State, events: seq<Event>)
    decreases events
  {
    events == [] || (Enabled(s, events[0]) && ValidRun(Apply(s, events[0]), events[1..]))
  }

  ghost function After(s: State, events: seq<Event>): State
    requires ValidRun(s, events)
    decreases events
  {
    if events == [] then s else After(Apply(s, events[0]), events[1..])
  }

  ghost predicate Scheduled(s: State, job: (string, string)) {
    exists k :: k in s.schedule && JobOf(s.schedule[k]) == job
  }

  /** The job is in exactly one place, once. */
  ghost predicate InOnePlace(s: State, job: (string, string)) {
    && (forall k, l :: k in s.schedule && l in s.schedule && JobOf(s.schedule[k]) == job && JobOf(s.schedule[l]) == job ==> k == l)
    && (Scheduled(s, job) ==> s.done[job] == 0 && (s.inHand.Some? ==> JobOf(s.inHand.value) != job))
    && (s.inHand.Some? && JobOf(s.inHand.value) == job ==> s.done[job] == 0)
    && (!Scheduled(s, job) && (s.inHand.Some? ==> JobOf(s.inHand.value) != job) ==> s.done[job] == 1)
  }

  /** The heights of each pool stay in one residue class modulo 3, and no class has two pools. */
  ghost predicate Classes(classes: map<string, int>) {
    forall p, q :: p in classes && q in classes && classes[p] == classes[q] ==> p == q
  }

  ghost predicate InClass(classes: map<string, int>, item: Item) {
    item.pool in classes && item.height % RETRYGAP == classes[item.pool]
  }

  ghost predicate Inv(classes: map<string, int>, jobs: set<(string, string)>, s: State) {
    && Keyed(s.schedule)
    && (forall k :: k in s.schedule ==> InClass(classes, s.schedule[k]) && JobOf(s.schedule[k]) in jobs)
    && (s.inHand.Some? ==> InClass(classes, s.inHand.value) && JobOf(s.inHand.value) in jobs)
    && (forall job :: job in jobs ==> InOnePlace(s, job))
  }

  /** Two jobs under one key are jobs of the same pool. */
  lemma SameKeySameJob(classes: map<string, int>, a: Item, b: Item)
    requires Classes(classes) && InClass(classes, a) && InClass(classes, b) && KeyOf(a) == KeyOf(b)
    ensures JobOf(a) == JobOf(b)
  {
    ItemKeyInjective(a.height, a.chainType, b.height, b.chainType);
  }

  /** Putting the job in hand under a free key. */
  lemma AddKeepsPlaces(s: State, k: string, added: Item, job: (string, string))
    requires InOnePlace(s, job) && k !in s.schedule
    requires s.inHand.Some? && JobOf(s.inHand.value) == JobOf(added)
    ensures InOnePlace(State(s.schedule[k := added], None, s.done), job)
  {
    var t := State(s.schedule[k := added], None, s.done);
    assert t.schedule[k] == added;
    if Scheduled(s, job) {
      var l :| l in s.schedule && JobOf(s.schedule[l]) == job;
      assert l in t.schedule && t.schedule[l] == s.schedule[l];
      assert Scheduled(t, job);
    }
    assert job == JobOf(added) ==> Scheduled(t, job);
    assert Scheduled(t, job) ==> Scheduled(s, job) || job == JobOf(added);
  }

  lemma FreeKey(classes: map<string, int>, jobs: set<(string, string)>, s: State, gap: int)
    requires Classes(classes) && Inv(classes, jobs, s) && Enabled(s, Retry(gap))
    ensures var added := s.inHand.value.(height := s.inHand.value.height + gap);
            KeyOf(added) !in s.schedule && InClass(classes, added)
  {
    var item := s.inHand.value;
    var added := item.(height := item.height + gap);
    assert InOnePlace(s, JobOf(item));
    assert forall k :: k in s.schedule && JobOf(s.schedule[k]) == JobOf(item) ==> Scheduled(s, JobOf(item));
    if KeyOf(added) in s.schedule {
      SameKeySameJob(classes, added, s.schedule[KeyOf(added)]);
    }
  }

  lemma RetryKeepsInv(classes: map<string, int>, jobs: set<(string, string)>, s: State, gap: int)
    requires Classes(classes) && Inv(classes, jobs, s) && Enabled(s, Retry(gap))
    ensures Inv(classes, jobs, Apply(s, Retry(gap)))
  {
    var added := s.inHand.value.(height := s.inHand.value.height + gap);
    FreeKey(classes, jobs, s, gap);
    forall job | job in jobs
      ensures InOnePlace(Apply(s, Retry(gap)), job)
    {
      AddKeepsPlaces(s, KeyOf(added), added, job);
    }
  }

  lemma PopKeepsPlaces(s: State, key: string, job: (string, string))
    requires InOnePlace(s, job) && key in s.schedule && s.inHand.None?
    ensures InOnePlace(State(s.schedule - {key}, Some(s.schedule[key]), s.done), job)
  {
    var t := State(s.schedule - {key}, Some(s.schedule[key]), s.done);
    assert Scheduled(s, JobOf(s.schedule[key]));
    if Scheduled(s, job) && job != JobOf(s.schedule[key]) {
      var k :| k in s.schedule && JobOf(s.schedule[k]) == job;
      assert k in t.schedule;
      assert Scheduled(t, job);
    }
    assert Scheduled(t, job) ==> Scheduled(s, job) && job != JobOf(s.schedule[key]);
  }

  lemma PopKeepsInv(classes: map<string, int>, jobs: set<(string, string)>, s: State, key: string, current: int)
    requires Inv(classes, jobs, s) && Enabled(s, Pop(key, current))
    ensures Inv(classes, jobs, Apply(s, Pop(key, current)))
  {
    forall job | job in jobs
      ensures InOnePlace(Apply(s, Pop(key, current)), job)
    {
      PopKeepsPlaces(s, key, job);
    }
  }

  lemma DoneKeepsInv(classes: map<string, int>, jobs: set<(string, string)>, s: State)
    requires Inv(classes, jobs, s) && Enabled(s, Done)
    ensures Inv(classes, jobs, Apply(s, Done))
  {
    var t := Apply(s, Done);
    forall job | job in jobs
      ensures InOnePlace(t, job)
    {
      assert InOnePlace(s, job);
      assert Scheduled(t, job) <==> Scheduled(s, job);
    }
  }

  lemma StepKeepsInv(classes: map<string, int>, jobs: set<(string, string)>, s: State, e: Event)
    requires Classes(classes) && Inv(classes, jobs, s) && Enabled(s, e)
    ensures Inv(classes, jobs, Apply(s, e))
  {
    match e
    case Pop(key, current) => PopKeepsInv(classes, jobs, s, key, current);
    case Done => DoneKeepsInv(classes, jobs, s);
    case Retry(gap) => RetryKeepsInv(classes, jobs, s, gap);
    case Restart(saved) => Rebuild(s.schedule, KeyedItems(saved));
  }

  lemma {:induction false} RunKeepsInv(classes: map<string, int>, jobs: set<(string, string)>, s: State, events: seq<Event>)
    requires Classes(classes) && Inv(classes, jobs, s) && ValidRun(s, events)
    ensures Inv(classes, jobs, After(s, events))
    decreases events
  {
    if events != [] {
      StepKeepsInv(classes, jobs, s, events[0]);
      RunKeepsInv(classes, jobs, Apply(s, events[0]), events[1..]);
    }
  }

  function AddAll(s: Schedule, items: seq<Item>): Schedule
    decreases items
  {
    if items == [] then s else AddAll(Added(s, items[0]), items[1..])
  }

  /** The four calls of one rotation at height l: the pool that leaves the window, and the one that
      stays in it. */
  function RotationItems(leaving: string, staying: string, l: int): seq<Item> {
    [ Item(leaving, l - MINCHECKBLOCKGAP + 5, "BSC"), Item(leaving, l - MINCHECKBLOCKGAP + 5, "ETH"),
      Item(staying, l - MINCHECKBLOCKGAP + 10, "BSC"), Item(staying, l - MINCHECKBLOCKGAP + 10, "ETH") ]
  }

  /** The schedule after one rotation, from an empty one. */
  function AfterRotation(leaving: string, staying: string, l: int): Schedule {
    AddAll(map[], RotationItems(leaving, staying, l))
  }

  lemma AddFour(s: Schedule, i1: Item, i2: Item, i3: Item, i4: Item)
    ensures AddAll(s, [i1, i2, i3, i4]) == Added(Added(Added(Added(s, i1), i2), i3), i4)
  {
    assert [i1, i2, i3, i4] == [i1] + [i2, i3, i4] && [i2, i3, i4] == [i2] + [i3, i4];
    assert [i3, i4] == [i3] + [i4] && [i4] == [i4] + [];
    AddOne(s, i1, [i2, i3, i4]);
    AddOne(Added(s, i1), i2, [i3, i4]);
    AddOne(Added(Added(s, i1), i2), i3, [i4]);
    AddOne(Added(Added(Added(s, i1), i2), i3), i4, []);
  }

  lemma AddOne(s: Schedule, item: Item, rest: seq<Item>)
    ensures AddAll(s, [item] + rest) == AddAll(Added(s, item), rest)
  {
    assert ([item] + rest)[1..] == rest;
  }

  function RotationJobs(leaving: string, staying: string): set<(string, string)> {
    {(leaving, "BSC"), (leaving, "ETH"), (staying, "BSC"), (staying, "ETH")}
  }

  ghost function Start(leaving: string, staying: string, l: int): State {
    State(AfterRotation(leaving, staying, l), None, multiset{})
  }

  ghost function RotationClasses(leaving: string, staying: string, l: int): map<string, int> {
    map[leaving := (l - 25) % RETRYGAP, staying := (l - 20) % RETRYGAP]
  }

  lemma RotationClassesDiffer(leaving: string, staying: string, l: int)
    ensures leaving != staying ==> Classes(RotationClasses(leaving, staying, l))
  {
    assert (l - 20) % RETRYGAP == ((l - 25) + 5) % RETRYGAP;
    var x := (l - 25) % RETRYGAP;
    assert (l - 20) % RETRYGAP == (x + 5) % RETRYGAP;
  }

  lemma FourKeys(l: int)
    ensures var h1, h2 := l - MINCHECKBLOCKGAP + 5, l - MINCHECKBLOCKGAP + 10;
            var k1, k2, k3, k4 := ItemKey(h1, "BSC"), ItemKey(h1, "ETH"), ItemKey(h2, "BSC"), ItemKey(h2, "ETH");
            k1 != k2 && k1 != k3 && k1 != k4 && k2 != k3 && k2 != k4 && k3 != k4
  {
    var h1, h2 := l - MINCHECKBLOCKGAP + 5, l - MINCHECKBLOCKGAP + 10;
    assert "BSC"[0] != "ETH"[0];
    ItemKeyInjective(h1, "BSC", h1, "ETH");
    ItemKeyInjective(h1, "BSC", h2, "BSC");
    ItemKeyInjective(h1, "BSC", h2, "ETH");
    ItemKeyInjective(h1, "ETH", h2, "BSC");
    ItemKeyInjective(h1, "ETH", h2, "ETH");
    ItemKeyInjective(h2, "BSC", h2, "ETH");
  }

  /** Four entries with pairwise different jobs. */
  lemma FourPlaces(k1: string, k2: string, k3: string, k4: string, i1: Item, i2: Item, i3: Item, i4: Item, job: (string, string))
    requires k1 != k2 && k1 != k3 && k1 != k4 && k2 != k3 && k2 != k4 && k3 != k4
    requires JobOf(i1) != JobOf(i2) && JobOf(i1) != JobOf(i3) && JobOf(i1) != JobOf(i4)
    requires JobOf(i2) != JobOf(i3) && JobOf(i2) != JobOf(i4) && JobOf(i3) != JobOf(i4)
    requires job in {JobOf(i1), JobOf(i2), JobOf(i3), JobOf(i4)}
    ensures InOnePlace(State(map[][k1 := i1][k2 := i2][k3 := i3][k4 := i4], None, multiset{}), job)
  {
    var s := State(map[][k1 := i1][k2 := i2][k3 := i3][k4 := i4], None, multiset{});
    assert s.schedule.Keys == {k1, k2, k3, k4};
    assert s.schedule[k1] == i1 && s.schedule[k2] == i2 && s.schedule[k3] == i3 && s.schedule[k4] == i4;
    assert Scheduled(s, job);
  }

  lemma FourInClass(classes: map<string, int>, jobs: set<(string, string)>, items: seq<Item>, s: Schedule)
    requires |items| == 4 && forall i :: 0 <= i < 4 ==> InClass(classes, items[i]) && JobOf(items[i]) in jobs
    requires s == Added(Added(Added(Added(map[], items[0]), items[1]), items[2]), items[3])
    ensures Keyed(s) && forall k :: k in s ==> InClass(classes, s[k]) && JobOf(s[k]) in jobs
  {
    forall k | k in s
      ensures KeyOf(s[k]) == k && s[k] in items
    {
      assert k == KeyOf(items[0]) || k == KeyOf(items[1]) || k == KeyOf(items[2]) || k == KeyOf(items[3]);
    }
  }

  lemma RotationStarts(leaving: string, staying: string, l: int)
    requires leaving != staying
    ensures Inv(RotationClasses(leaving, staying, l), RotationJobs(leaving, staying), Start(leaving, staying, l))
  {
    var h1, h2 := l - MINCHECKBLOCKGAP + 5, l - MINCHECKBLOCKGAP + 10;
    var i1, i2, i3, i4 := Item(leaving, h1, "BSC"), Item(leaving, h1, "ETH"), Item(staying, h2, "BSC"), Item(staying, h2, "ETH");
    FourKeys(l);
    assert "BSC"[0] != "ETH"[0];
    AddFour(map[], i1, i2, i3, i4);
    FourInClass(RotationClasses(leaving, staying, l), RotationJobs(leaving, staying), [i1, i2, i3, i4],
                AfterRotation(leaving, staying, l));
    forall job | job in RotationJobs(leaving, staying)
      ensures InOnePlace(Start(leaving, staying, l), job)
    {
      FourPlaces(KeyOf(i1), KeyOf(i2), KeyOf(i3), KeyOf(i4), i1, i2, i3, i4, job);
    }
  }

  /** The two pools of a rotation never overwrite each other: over every run of pops, retries and
      restarts each of the four jobs is in exactly one place, and it only leaves the schedule for good
      through a MoveFound that did not add it again. */
  lemma RotationNeverLosesAJob(leaving: string, staying: string, l: int, events: seq<Event>, job: (string, string))
    requires leaving != staying && job in RotationJobs(leaving, staying)
    requires ValidRun(Start(leaving, staying, l), events)
    ensures InOnePlace(After(Start(leaving, staying, l), events), job)
  {
    RotationStarts(leaving, staying, l);
    RotationClassesDiffer(leaving, staying, l);
    KeptAfter(RotationClasses(leaving, staying, l), RotationJobs(leaving, staying), Start(leaving, staying, l), events, job);
  }

  lemma KeptAfter(classes: map<string, int>, jobs: set<(string, string)>, s: State, events: seq<Event>, job: (string, string))
    requires Classes(classes) && Inv(classes, jobs, s) && ValidRun(s, events) && job in jobs
    ensures InOnePlace(After(s, events), job)
  {
    RunKeepsInv(classes, jobs, s, events);
  }

  // ----- jobs of different rotations -----

  function TwoJobs(p: string, h1: int, q: string, h2: int, chainType: string): State {
    State(Added(Added(map[], Item(p, h1, chainType)), Item(q, h2, chainType)), None, multiset{})
  }

  lemma OneRetry(p: string, h1: int, q: string, h2: int, chainType: string)
    requires h1 < h2
    ensures var s := TwoJobs(q, h2, p, h1, chainType);
            var pop := Pop(ItemKey(h1, chainType), h1 + 31);
            && Enabled(s, pop) && Enabled(Apply(s, pop), Retry(RETRYGAP))
            && Apply(Apply(s, pop), Retry(RETRYGAP)) == TwoJobs(q, h2, p, h1 + RETRYGAP, chainType)
  {
    var s := TwoJobs(q, h2, p, h1, chainType);
    var k1, k2 := ItemKey(h1, chainType), ItemKey(h2, chainType);
    ItemKeyInjective(h1, chainType, h2, chainType);
    assert s.schedule == map[k2 := Item(q, h2, chainType)][k1 := Item(p, h1, chainType)];
    assert s.schedule - {k1} == map[k2 := Item(q, h2, chainType)];
  }

  lemma RunTwo(s: State, e: Event, f: Event, rest: seq<Event>)
    requires Enabled(s, e) && Enabled(Apply(s, e), f) && ValidRun(Apply(Apply(s, e), f), rest)
    ensures ValidRun(s, [e, f] + rest) && After(s, [e, f] + rest) == After(Apply(Apply(s, e), f), rest)
  {
    var events := [e, f] + rest;
    assert events[1..] == [f] + rest && ([f] + rest)[1..] == rest;
    assert ValidRun(Apply(s, e), [f] + rest);
  }

  /** Retrying the older of two jobs until it reaches the height of the younger one. */
  lemma {:induction false} CatchUp(p: string, h1: int, q: string, h2: int, chainType: string) returns (events: seq<Event>)
    requires p != q && h1 <= h2 && h1 % RETRYGAP == h2 % RETRYGAP
    ensures ValidRun(TwoJobs(q, h2, p, h1, chainType), events)
    ensures !InOnePlace(After(TwoJobs(q, h2, p, h1, chainType), events), (q, chainType))
    decreases h2 - h1
  {
    var s := TwoJobs(q, h2, p, h1, chainType);
    if h1 == h2 {
      events := [];
      Overwritten(p, q, h1, chainType);
    } else {
      OneRetry(p, h1, q, h2, chainType);
      var rest := CatchUp(p, h1 + RETRYGAP, q, h2, chainType);
      RunTwo(s, Pop(ItemKey(h1, chainType), h1 + 31), Retry(RETRYGAP), rest);
      events := [Pop(ItemKey(h1, chainType), h1 + 31), Retry(RETRYGAP)] + rest;
    }
  }

  lemma Overwritten(p: string, q: string, h: int, chainType: string)
    requires p != q
    ensures !InOnePlace(TwoJobs(q, h, p, h, chainType), (q, chainType))
  {
    var s := TwoJobs(q, h, p, h, chainType);
    assert s.schedule == map[ItemKey(h, chainType) := Item(p, h, chainType)];
    assert !Scheduled(s, (q, chainType));
  }

  lemma TwoJobsInv(p: string, h1: int, q: string, h2: int, chainType: string)
    requires p != q && h1 % RETRYGAP != h2 % RETRYGAP
    ensures Inv(map[p := h1 % RETRYGAP, q := h2 % RETRYGAP], {(p, chainType), (q, chainType)}, TwoJobs(q, h2, p, h1, chainType))
  {
    var s := TwoJobs(q, h2, p, h1, chainType);
    ItemKeyInjective(h1, chainType, h2, chainType);
    var k1, k2 := ItemKey(h1, chainType), ItemKey(h2, chainType);
    assert s.schedule == map[k1 := Item(p, h1, chainType), k2 := Item(q, h2, chainType)];
    assert JobOf(s.schedule[k1]) == (p, chainType) && JobOf(s.schedule[k2]) == (q, chainType);
    assert Scheduled(s, (p, chainType)) && Scheduled(s, (q, chainType));
  }

  /** Two jobs of different pools on one chain are safe from each other in every run exactly when their
      heights differ modulo 3. */
  lemma NeverCollideIff(p: string, h1: int, q: string, h2: int, chainType: string)
    requires p != q && h1 <= h2
    ensures (forall events :: ValidRun(TwoJobs(q, h2, p, h1, chainType), events)
               ==> InOnePlace(After(TwoJobs(q, h2, p, h1, chainType), events), (p, chainType))
                   && InOnePlace(After(TwoJobs(q, h2, p, h1, chainType), events), (q, chainType)))
            <==> h1 % RETRYGAP != h2 % RETRYGAP
  {
    var s := TwoJobs(q, h2, p, h1, chainType);
    if h1 % RETRYGAP == h2 % RETRYGAP {
      var events := CatchUp(p, h1, q, h2, chainType);
    } else {
      var classes := map[p := h1 % RETRYGAP, q := h2 % RETRYGAP];
      var jobs := {(p, chainType), (q, chainType)};
      TwoJobsInv(p, h1, q, h2, chainType);
      forall events | ValidRun(s, events)
        ensures InOnePlace(After(s, events), (p, chainType)) && InOnePlace(After(s, events), (q, chainType))
      {
        RunKeepsInv(classes, jobs, s, events);
      }
    }
  }
}
