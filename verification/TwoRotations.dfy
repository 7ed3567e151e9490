/** The jobs of two successive rotations, a leaving and b staying, then b leaving and c staying, in one
    schedule (bridge/bridge_service.go, pubchain/move_fund.go). Pools are moved and rotations are
    handled on one goroutine, so no job is in hand at a rotation. */
module TwoRotations {
  import opened Common
  import opened KeyedStore
  import opened MoveFundSchedule

  /** Every job is under its own key and in the class of its pool. */
  ghost predicate Tidy(classes: map<string, int>, s: State) {
    && Keyed(s.schedule)
    && (forall k :: k in s.schedule ==> InClass(classes, s.schedule[k]))
    && (s.inHand.Some? ==> InClass(classes, s.inHand.value))
  }

  /** Adding the item would replace another job. */
  ghost predicate Replaces(s: Schedule, item: Item) {
    KeyOf(item) in s && JobOf(s[KeyOf(item)]) != JobOf(item)
  }

  ghost predicate AddsFreely(s: Schedule, items: seq<Item>)
    decreases items
  {
    items == [] || (!Replaces(s, items[0]) && AddsFreely(Added(s, items[0]), items[1..]))
  }

  ghost predicate NeverReplaces(s: State, events: seq<Event>)
    requires ValidRun(s, events)
    decreases events
  {
    events == [] ||
    ((events[0].Retry? ==> !Replaces(s.schedule, s.inHand.value.(height := s.inHand.value.height + events[0].gap)))
     && NeverReplaces(Apply(s, events[0]), events[1..]))
  }

  lemma StepKeepsTidy(classes: map<string, int>, s: State, e: Event)
    requires Tidy(classes, s) && Enabled(s, e)
    ensures Tidy(classes, Apply(s, e))
  {
    if e.Restart? {
      Rebuild(s.schedule, KeyedItems(e.saved));
    }
  }

  lemma {:induction false} TidyNeverReplaces(classes: map<string, int>, s: State, events: seq<Event>)
    requires Classes(classes) && Tidy(classes, s) && ValidRun(s, events)
    ensures NeverReplaces(s, events) && Tidy(classes, After(s, events))
    decreases events
  {
    if events != [] {
      if events[0].Retry? {
        NoReplacement(classes, s.schedule, s.inHand.value.(height := s.inHand.value.height + events[0].gap));
      }
      StepKeepsTidy(classes, s, events[0]);
      TidyNeverReplaces(classes, Apply(s, events[0]), events[1..]);
    }
  }

  lemma NoReplacement(classes: map<string, int>, s: Schedule, item: Item)
    requires Classes(classes) && Keyed(s) && InClass(classes, item)
    requires forall k :: k in s ==> InClass(classes, s[k])
    ensures !Replaces(s, item)
  {
    if KeyOf(item) in s {
      SameKeySameJob(classes, item, s[KeyOf(item)]);
    }
  }

  lemma {:induction false} TidyAddsFreely(classes: map<string, int>, s: Schedule, items: seq<Item>)
    requires Classes(classes) && Keyed(s) && forall k :: k in s ==> InClass(classes, s[k])
    requires forall i :: 0 <= i < |items| ==> InClass(classes, items[i])
    ensures AddsFreely(s, items)
    ensures Tidy(classes, State(AddAll(s, items), None, multiset{}))
    decreases items
  {
    if items != [] {
      NoReplacement(classes, s, items[0]);
      TidyAddsFreely(classes, Added(s, items[0]), items[1..]);
    }
  }

  // ----- runs with heights -----

  /** The heights at which jobs are popped do not decrease, and start at from. */
  ghost predicate Rising(events: seq<Event>, from: int)
    decreases events
  {
    events == [] ||
    if events[0].Pop? then from <= events[0].current && Rising(events[1..], events[0].current)
    else Rising(events[1..], from)
  }

  /** And they end at to at the latest. */
  ghost predicate Within(events: seq<Event>, from: int, to: int)
    decreases events
  {
    if events == [] then from <= to
    else if events[0].Pop? then from <= events[0].current && Within(events[1..], events[0].current, to)
    else Within(events[1..], from, to)
  }

  function Rotated(s: State, leaving: string, staying: string, l: int): State {
    s.(schedule := AddAll(s.schedule, RotationItems(leaving, staying, l)))
  }

  /** A run from a rotation at l1 through the next one at l2, with the heights of one chain. */
  ghost predicate IsRun(a: string, b: string, c: string, l1: int, l2: int, before: seq<Event>, after: seq<Event>) {
    && ValidRun(Start(a, b, l1), before) && Within(before, l1, l2)
    && After(Start(a, b, l1), before).inHand.None?
    && ValidRun(Rotated(After(Start(a, b, l1), before), b, c, l2), after) && Rising(after, l2)
  }

  /** No job replaces that of another pool up to the second rotation, and at it. */
  ghost predicate SafeBefore(a: string, b: string, c: string, l1: int, l2: int, before: seq<Event>)
    requires ValidRun(Start(a, b, l1), before)
  {
    NeverReplaces(Start(a, b, l1), before) && AddsFreely(After(Start(a, b, l1), before).schedule, RotationItems(b, c, l2))
  }

  ghost predicate SafeAfter(a: string, b: string, c: string, l1: int, l2: int, before: seq<Event>, after: seq<Event>)
    requires IsRun(a, b, c, l1, l2, before, after)
  {
    NeverReplaces(Rotated(After(Start(a, b, l1), before), b, c, l2), after)
  }

  ghost predicate AllRunsSafe(a: string, b: string, c: string, l1: int, l2: int) {
    forall before, after :: IsRun(a, b, c, l1, l2, before, after)
      ==> SafeBefore(a, b, c, l1, l2, before) && SafeAfter(a, b, c, l1, l2, before, after)
  }

  // ----- the safe residue -----

  lemma SafeRuns(a: string, b: string, c: string, l1: int, l2: int)
    requires a != b && a != c && b != c && (l2 - l1) % RETRYGAP == 2
    ensures AllRunsSafe(a, b, c, l1, l2)
  {
    var classes := ClassesOf(a, b, c, l1, l2);
    ThreeClasses(a, b, c, l1, l2);
    forall before, after | IsRun(a, b, c, l1, l2, before, after)
      ensures SafeBefore(a, b, c, l1, l2, before) && SafeAfter(a, b, c, l1, l2, before, after)
    {
      TidyNeverReplaces(classes, Start(a, b, l1), before);
      var s := After(Start(a, b, l1), before);
      TidyAddsFreely(classes, s.schedule, RotationItems(b, c, l2));
      TidyNeverReplaces(classes, Rotated(s, b, c, l2), after);
    }
  }

  function ClassesOf(a: string, b: string, c: string, l1: int, l2: int): map<string, int> {
    map[a := (l1 - 25) % RETRYGAP, b := (l1 - 20) % RETRYGAP, c := (l2 - 20) % RETRYGAP]
  }

  lemma Residues(l1: int, l2: int)
    requires (l2 - l1) % RETRYGAP == 2
    ensures (l2 - 25) % RETRYGAP == (l1 - 20) % RETRYGAP
    ensures (l1 - 25) % RETRYGAP != (l1 - 20) % RETRYGAP
    ensures (l1 - 25) % RETRYGAP != (l2 - 20) % RETRYGAP && (l1 - 20) % RETRYGAP != (l2 - 20) % RETRYGAP
  {
  }

  lemma ThreeClasses(a: string, b: string, c: string, l1: int, l2: int)
    requires a != b && a != c && b != c && (l2 - l1) % RETRYGAP == 2
    ensures Classes(ClassesOf(a, b, c, l1, l2))
    ensures Tidy(ClassesOf(a, b, c, l1, l2), Start(a, b, l1))
    ensures forall i :: 0 <= i < 4 ==> InClass(ClassesOf(a, b, c, l1, l2), RotationItems(b, c, l2)[i])
  {
    Residues(l1, l2);
    var classes := ClassesOf(a, b, c, l1, l2);
    assert forall i :: 0 <= i < 4 ==> InClass(classes, RotationItems(a, b, l1)[i]);
    TidyAddsFreely(classes, map[], RotationItems(a, b, l1));
  }

  // ----- up to the second rotation -----

  /** A job of the first rotation that has not been moved, or one that was popped by height now. */
  ghost predicate Low(a: string, b: string, l1: int, now: int, item: Item) {
    || (item.pool == a && item.height == l1 - 25)
    || (item.pool == b && item.height == l1 - 20)
    || item.height <= now - MINCHECKBLOCKGAP - 1 + RETRYGAP
  }

  ghost predicate AllLow(a: string, b: string, l1: int, now: int, s: State) {
    && Keyed(s.schedule)
    && (forall k :: k in s.schedule ==> Low(a, b, l1, now, s.schedule[k]))
    && (s.inHand.Some? ==> s.inHand.value.height <= now - MINCHECKBLOCKGAP - 1)
  }

  lemma StepKeepsLow(a: string, b: string, l1: int, now: int, s: State, e: Event, next: int)
    requires AllLow(a, b, l1, now, s) && Enabled(s, e) && next == if e.Pop? then e.current else now
    requires now <= next
    ensures AllLow(a, b, l1, next, Apply(s, e))
  {
    if e.Restart? {
      Rebuild(s.schedule, KeyedItems(e.saved));
    }
  }

  lemma {:induction false} RunKeepsLow(a: string, b: string, l1: int, now: int, s: State, events: seq<Event>, to: int)
    requires AllLow(a, b, l1, now, s) && ValidRun(s, events) && Within(events, now, to)
    ensures AllLow(a, b, l1, to, After(s, events))
    decreases events
  {
    if events != [] {
      var next := if events[0].Pop? then events[0].current else now;
      StepKeepsLow(a, b, l1, now, s, events[0], next);
      RunKeepsLow(a, b, l1, next, Apply(s, events[0]), events[1..], to);
    }
  }

  lemma StartIsLow(a: string, b: string, l1: int)
    ensures AllLow(a, b, l1, l1, Start(a, b, l1))
  {
    var items := RotationItems(a, b, l1);
    AddFour(map[], items[0], items[1], items[2], items[3]);
  }

  /** The new keys are above every job but the same pool's own one. */
  lemma LowAddsFreely(a: string, b: string, c: string, l1: int, l2: int, s: Schedule)
    requires a != b && l1 < l2 && AllLow(a, b, l1, l2, State(s, None, multiset{}))
    ensures AddsFreely(s, RotationItems(b, c, l2))
  {
    var items := RotationItems(b, c, l2);
    var s1 := Added(s, items[0]);
    var s2 := Added(s1, items[1]);
    var s3 := Added(s2, items[2]);
    FourKeys(l2);
    LowIsFree(a, b, l1, l2, s, items[0]);
    LowIsFree(a, b, l1, l2, s, items[1]);
    LowIsFree(a, b, l1, l2, s, items[2]);
    LowIsFree(a, b, l1, l2, s, items[3]);
    assert items[1..] == [items[1], items[2], items[3]] && items[1..][1..] == [items[2], items[3]];
    assert items[1..][1..][1..] == [items[3]] && [items[3]][1..] == [];
    assert AddsFreely(Added(s3, items[3]), []);
    assert AddsFreely(s3, [items[3]]);
    assert AddsFreely(s2, [items[2], items[3]]);
    assert AddsFreely(s1, [items[1], items[2], items[3]]);
  }

  lemma LowIsFree(a: string, b: string, l1: int, l2: int, s: Schedule, item: Item)
    requires a != b && l1 < l2 && AllLow(a, b, l1, l2, State(s, None, multiset{}))
    requires (item.pool == b && item.height == l2 - 25) || item.height == l2 - 20
    ensures !Replaces(s, item)
  {
    if KeyOf(item) in s {
      var other := s[KeyOf(item)];
      ItemKeyInjective(other.height, other.chainType, item.height, item.chainType);
    }
  }

  /** Whatever the two heights are, nothing goes wrong before the second rotation, nor at it: a job that
      was popped by then is too low. */
  lemma SafeUntilRotation(a: string, b: string, c: string, l1: int, l2: int, before: seq<Event>)
    requires a != b && l1 < l2 && ValidRun(Start(a, b, l1), before) && Within(before, l1, l2)
    requires After(Start(a, b, l1), before).inHand.None?
    ensures SafeBefore(a, b, c, l1, l2, before)
  {
    var s0 := Start(a, b, l1);
    StartIsLow(a, b, l1);
    RunKeepsLow(a, b, l1, l1, s0, before, l2);
    LowAddsFreely(a, b, c, l1, l2, After(s0, before).schedule);
    var classes := RotationClasses(a, b, l1);
    RotationClassesDiffer(a, b, l1);
    RotationStarts(a, b, l1);
    TidyNeverReplaces(classes, s0, before);
  }

  // ----- the runs that fail -----

  /** p's job is below q's job on one chain, at a multiple of the retry gap. */
  ghost predicate Chasing(s: State, p: string, h: int, q: string, t: int) {
    && Keyed(s.schedule) && s.inHand.None? && p != q && h < t && (t - h) % RETRYGAP == 0
    && ItemKey(h, "BSC") in s.schedule && s.schedule[ItemKey(h, "BSC")] == Item(p, h, "BSC")
    && ItemKey(t, "BSC") in s.schedule && s.schedule[ItemKey(t, "BSC")] == Item(q, t, "BSC")
  }

  lemma LeastOnChain(s: Schedule, chainType: string, some: string) returns (k: string)
    requires some in s && s[some].chainType == chainType
    ensures k in s && s[k].chainType == chainType
    ensures forall l :: l in s && s[l].chainType == chainType ==> s[k].height <= s[l].height
  {
    k := some;
    var rest := s.Keys;
    while rest != {}
      invariant rest <= s.Keys && k in s && s[k].chainType == chainType
      invariant forall l :: l in s && l !in rest && s[l].chainType == chainType ==> s[k].height <= s[l].height
    {
      var l :| l in rest;
      rest := rest - {l};
      if s[l].chainType == chainType && s[l].height < s[k].height {
        k := l;
      }
    }
  }

  lemma ThenRest(s: State, e: Event, f: Event, rest: seq<Event>, now: int)
    requires e.Pop? && now <= e.current && !f.Pop?
    requires Enabled(s, e) && Enabled(Apply(s, e), f) && ValidRun(Apply(Apply(s, e), f), rest)
    requires Rising(rest, e.current) && !NeverReplaces(Apply(Apply(s, e), f), rest)
    ensures var events := [e, f] + rest; ValidRun(s, events) && Rising(events, now) && !NeverReplaces(s, events)
  {
    var events := [e, f] + rest;
    RunTwo(s, e, f, rest);
    assert events[1..] == [f] + rest && ([f] + rest)[1..] == rest;
    assert !NeverReplaces(Apply(s, e), [f] + rest);
  }

  lemma ThenReplaced(s: State, e: Event, now: int)
    requires e.Pop? && now <= e.current && Enabled(s, e)
    requires var item := Apply(s, e).inHand.value; Replaces(Apply(s, e).schedule, item.(height := item.height + RETRYGAP))
    ensures var events := [e, Retry(RETRYGAP)]; ValidRun(s, events) && Rising(events, now) && !NeverReplaces(s, events)
  {
    var events := [e, Retry(RETRYGAP)];
    assert events[1..] == [Retry(RETRYGAP)] && [Retry(RETRYGAP)][1..] == [];
    assert ValidRun(Apply(Apply(s, e), Retry(RETRYGAP)), []);
    assert !NeverReplaces(Apply(s, e), [Retry(RETRYGAP)]);
  }

  /** One retry of the chaser, when it is the lowest job. */
  lemma ChaserMoves(s: State, p: string, h: int, q: string, t: int, current: int)
    requires Chasing(s, p, h, q, t) && Enabled(s, Pop(ItemKey(h, "BSC"), current))
    requires !Replaces(s.schedule - {ItemKey(h, "BSC")}, Item(p, h + RETRYGAP, "BSC"))
    ensures var u := Apply(Apply(s, Pop(ItemKey(h, "BSC"), current)), Retry(RETRYGAP));
            Chasing(u, p, h + RETRYGAP, q, t) && |u.schedule| <= |s.schedule|
  {
    ItemKeyInjective(h, "BSC", t, "BSC");
    ItemKeyInjective(h + RETRYGAP, "BSC", t, "BSC");
    assert h + RETRYGAP != t;
    StillBelow(h, t);
    AddedSize(s.schedule - {ItemKey(h, "BSC")}, Item(p, h + RETRYGAP, "BSC"));
    RemovedSize(s.schedule, ItemKey(h, "BSC"));
  }

  lemma StillBelow(h: int, t: int)
    requires h < t && (t - h) % RETRYGAP == 0 && h + RETRYGAP != t
    ensures h + RETRYGAP < t && (t - (h + RETRYGAP)) % RETRYGAP == 0
  {
  }

  lemma RemovedSize(s: Schedule, k: string)
    requires k in s
    ensures |s - {k}| == |s| - 1
  {
    assert (s - {k}).Keys == s.Keys - {k};
    assert |s.Keys| == |s| && |(s - {k}).Keys| == |s - {k}|;
  }

  lemma AddedSize(s: Schedule, item: Item)
    ensures |Added(s, item)| <= |s| + 1
  {
    assert Added(s, item).Keys == s.Keys + {KeyOf(item)};
    assert |s.Keys| == |s| && |Added(s, item).Keys| == |Added(s, item)|;
  }

  /** Another job is the lowest: its pool is found empty. */
  lemma OtherLeaves(s: State, p: string, h: int, q: string, t: int, k: string, current: int)
    requires Chasing(s, p, h, q, t) && Enabled(s, Pop(k, current)) && k != ItemKey(h, "BSC") && s.schedule[k].chainType == "BSC"
    ensures var u := Apply(Apply(s, Pop(k, current)), Done); Chasing(u, p, h, q, t) && |u.schedule| < |s.schedule|
  {
    assert s.schedule[k].height <= s.schedule[ItemKey(h, "BSC")].height;
    RemovedSize(s.schedule, k);
  }

  /** The lowest job of the chain can be popped at some height from now on. */
  lemma LowestIsDue(s: State, p: string, h: int, q: string, t: int, now: int) returns (pop: Event)
    requires Chasing(s, p, h, q, t)
    ensures pop.Pop? && now <= pop.current && Enabled(s, pop) && s.schedule[pop.key].chainType == "BSC"
  {
    var k := LeastOnChain(s.schedule, "BSC", ItemKey(h, "BSC"));
    var due := s.schedule[k].height + MINCHECKBLOCKGAP + 1;
    pop := Pop(k, if now <= due then due else now);
  }

  /** A pop and what follows it: a replacement, or the chase goes on with a higher chaser or a job less. */
  lemma ChaseStep(s: State, p: string, h: int, q: string, t: int, now: int) returns (pop: Event, next: Event, h': int)
    requires Chasing(s, p, h, q, t)
    ensures pop.Pop? && now <= pop.current && Enabled(s, pop) && Enabled(Apply(s, pop), next) && !next.Pop?
    ensures h' == h && next != Done ==> ValidRun(s, [pop, next]) && Rising([pop, next], now) && !NeverReplaces(s, [pop, next])
    ensures var u := Apply(Apply(s, pop), next);
            if next == Done then h' == h && Chasing(u, p, h, q, t) && |u.schedule| < |s.schedule|
            else h' == h || (h' == h + RETRYGAP && Chasing(u, p, h', q, t) && |u.schedule| <= |s.schedule|)
  {
    pop := LowestIsDue(s, p, h, q, t, now);
    if pop.key != ItemKey(h, "BSC") {
      OtherLeaves(s, p, h, q, t, pop.key, pop.current);
      next, h' := Done, h;
    } else if Replaces(s.schedule - {pop.key}, Item(p, h + RETRYGAP, "BSC")) {
      ThenReplaced(s, pop, now);
      next, h' := Retry(RETRYGAP), h;
    } else {
      ChaserMoves(s, p, h, q, t, pop.current);
      next, h' := Retry(RETRYGAP), h + RETRYGAP;
    }
  }

  /** The chaser is retried, and every job below it is done, until it replaces another one. */
  lemma {:induction false} Collide(s: State, p: string, h: int, q: string, t: int, now: int) returns (events: seq<Event>)
    requires Chasing(s, p, h, q, t)
    ensures ValidRun(s, events) && Rising(events, now) && !NeverReplaces(s, events)
    decreases t - h + |s.schedule|
  {
    var pop, next, h' := ChaseStep(s, p, h, q, t, now);
    if h' == h && next != Done {
      events := [pop, next];
    } else {
      var rest := Collide(Apply(Apply(s, pop), next), p, h', q, t, pop.current);
      ThenRest(s, pop, next, rest, now);
      events := [pop, next] + rest;
    }
  }

  lemma StartHasFirst(a: string, b: string, l1: int)
    ensures var s := Start(a, b, l1).schedule;
            Keyed(s) && ItemKey(l1 - 25, "BSC") in s && s[ItemKey(l1 - 25, "BSC")] == Item(a, l1 - 25, "BSC")
  {
    var items := RotationItems(a, b, l1);
    FourKeys(l1);
    AddFour(map[], items[0], items[1], items[2], items[3]);
  }

  lemma {:induction false} AddAllKeyed(s: Schedule, items: seq<Item>)
    requires Keyed(s)
    ensures Keyed(AddAll(s, items))
    decreases items
  {
    if items != [] {
      AddAllKeyed(Added(s, items[0]), items[1..]);
    }
  }

  /** Storing four entries under distinct keys stores each of them. */
  lemma FourStored(s: Schedule, k1: string, i1: Item, k2: string, i2: Item, k3: string, i3: Item, k4: string, i4: Item)
    requires k1 != k2 && k1 != k3 && k1 != k4 && k3 != k4
    ensures var t := s[k1 := i1][k2 := i2][k3 := i3][k4 := i4]; k1 in t && t[k1] == i1 && k3 in t && t[k3] == i3
  {
  }

  lemma RotationAdds(s: Schedule, b: string, c: string, l2: int)
    requires Keyed(s)
    ensures var t := AddAll(s, RotationItems(b, c, l2));
            && Keyed(t)
            && ItemKey(l2 - 25, "BSC") in t && t[ItemKey(l2 - 25, "BSC")] == Item(b, l2 - 25, "BSC")
            && ItemKey(l2 - 20, "BSC") in t && t[ItemKey(l2 - 20, "BSC")] == Item(c, l2 - 20, "BSC")
  {
    var items := RotationItems(b, c, l2);
    FourKeys(l2);
    AddFour(s, items[0], items[1], items[2], items[3]);
    AddAllKeyed(s, items);
    FourStored(s, KeyOf(items[0]), items[0], KeyOf(items[1]), items[1], KeyOf(items[2]), items[2], KeyOf(items[3]), items[3]);
  }

  lemma {:induction false} LowerIsKept(s: Schedule, items: seq<Item>, item: Item)
    requires KeyOf(item) in s && s[KeyOf(item)] == item
    requires forall i :: 0 <= i < |items| ==> item.height < items[i].height
    ensures KeyOf(item) in AddAll(s, items) && AddAll(s, items)[KeyOf(item)] == item
    decreases items
  {
    if items != [] {
      ItemKeyInjective(item.height, item.chainType, items[0].height, items[0].chainType);
      LowerIsKept(Added(s, items[0]), items[1..], item);
    }
  }

  /** The jobs of two rotations, when nothing happens between them. */
  lemma BothScheduled(a: string, b: string, c: string, l1: int, l2: int)
    requires a != b && a != c && b != c && l1 < l2
    ensures var s := Rotated(Start(a, b, l1), b, c, l2).schedule;
            && Keyed(s)
            && ItemKey(l1 - 25, "BSC") in s && s[ItemKey(l1 - 25, "BSC")] == Item(a, l1 - 25, "BSC")
            && ItemKey(l2 - 25, "BSC") in s && s[ItemKey(l2 - 25, "BSC")] == Item(b, l2 - 25, "BSC")
            && ItemKey(l2 - 20, "BSC") in s && s[ItemKey(l2 - 20, "BSC")] == Item(c, l2 - 20, "BSC")
  {
    StartHasFirst(a, b, l1);
    RotationAdds(Start(a, b, l1).schedule, b, c, l2);
    LowerIsKept(Start(a, b, l1).schedule, RotationItems(b, c, l2), Item(a, l1 - 25, "BSC"));
  }

  lemma UnsafeRuns(a: string, b: string, c: string, l1: int, l2: int) returns (after: seq<Event>)
    requires a != b && a != c && b != c && l1 < l2 && (l2 - l1) % RETRYGAP != 2
    ensures IsRun(a, b, c, l1, l2, [], after) && !SafeAfter(a, b, c, l1, l2, [], after)
  {
    Chase(a, b, c, l1, l2);
    var s := Rotated(Start(a, b, l1), b, c, l2);
    var q, t := if (l2 - l1) % RETRYGAP == 0 then b else c, if (l2 - l1) % RETRYGAP == 0 then l2 - 25 else l2 - 20;
    after := Collide(s, a, l1 - 25, q, t, l2);
    IdleRun(a, b, c, l1, l2, after);
  }

  lemma IdleRun(a: string, b: string, c: string, l1: int, l2: int, after: seq<Event>)
    requires l1 < l2 && ValidRun(Rotated(Start(a, b, l1), b, c, l2), after) && Rising(after, l2)
    ensures IsRun(a, b, c, l1, l2, [], after)
    ensures SafeAfter(a, b, c, l1, l2, [], after) == NeverReplaces(Rotated(Start(a, b, l1), b, c, l2), after)
  {
  }

  /** The pool that leaves first chases a job of the second rotation. */
  lemma Chase(a: string, b: string, c: string, l1: int, l2: int)
    requires a != b && a != c && b != c && l1 < l2 && (l2 - l1) % RETRYGAP != 2
    ensures var s := Rotated(Start(a, b, l1), b, c, l2);
            if (l2 - l1) % RETRYGAP == 0 then Chasing(s, a, l1 - 25, b, l2 - 25) else Chasing(s, a, l1 - 25, c, l2 - 20)
  {
    BothScheduled(a, b, c, l1, l2);
    ChaserReaches(l1, l2);
  }

  lemma ChaserReaches(l1: int, l2: int)
    requires (l2 - l1) % RETRYGAP != 2
    ensures (l2 - l1) % RETRYGAP == 0 ==> (l2 - 25 - (l1 - 25)) % RETRYGAP == 0
    ensures (l2 - l1) % RETRYGAP != 0 ==> (l2 - 20 - (l1 - 25)) % RETRYGAP == 0
  {
  }

  /** Over every run of two successive rotations, at the heights of one chain, no job ever replaces that
      of another pool exactly when the two heights differ by 2 modulo 3. */
  lemma TwoRotationsIff(a: string, b: string, c: string, l1: int, l2: int)
    requires a != b && a != c && b != c && l1 < l2
    ensures AllRunsSafe(a, b, c, l1, l2) <==> (l2 - l1) % RETRYGAP == 2
  {
    if (l2 - l1) % RETRYGAP == 2 {
      SafeRuns(a, b, c, l1, l2);
    } else {
      var after := UnsafeRuns(a, b, c, l1, l2);
    }
  }
}
