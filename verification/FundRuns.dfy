/** Whole runs of the fund-moving step (bridge/pubchain_routine.go, pubchain/move_fund.go): every step
    of the schedule comes from one attempt and the answers it got. */
module FundRuns {
  import opened Common
  import opened MoveFundSchedule
  import opened MoveFund
  import PoolWindow

  /** What one public chain block does to the schedule, or a restart between two blocks. */
  datatype Round =
    | Idle
    | Try(popped: Item, current: int, dial: bool, tokens: seq<Token>, nonce: bool, native: NativeMove)
    | Reload(saved: seq<Item>)

  function EndOf(r: Round): Event
    requires r.Try?
  {
    if !r.dial then Retry(0) else if PoolReadEmpty(r.tokens, r.nonce, r.native) then Done else Retry(RETRYGAP)
  }

  function EventsOf(r: Round): seq<Event> {
    match r
    case Idle => []
    case Try(popped, current, _, _, _, _) => [Pop(KeyOf(popped), current), EndOf(r)]
    case Reload(saved) => [Restart(saved)]
  }

  ghost predicate IsRound(s: State, r: Round) {
    && s.inHand.None?
    && (r.Try? ==> KeyOf(r.popped) in s.schedule && s.schedule[KeyOf(r.popped)] == r.popped)
    && ValidRun(s, EventsOf(r))
  }

  ghost predicate ValidRounds(s: State, rounds: seq<Round>)
    decreases rounds
  {
    rounds == [] || (IsRound(s, rounds[0]) && ValidRounds(After(s, EventsOf(rounds[0])), rounds[1..]))
  }

  ghost function AfterRounds(s: State, rounds: seq<Round>): State
    requires ValidRounds(s, rounds)
    decreases rounds
  {
    if rounds == [] then s else AfterRounds(After(s, EventsOf(rounds[0])), rounds[1..])
  }

  /** The attempt on the job finds its pool empty. */
  predicate Empties(r: Round, job: (string, string)) {
    r.Try? && JobOf(r.popped) == job && r.dial && PoolReadEmpty(r.tokens, r.nonce, r.native)
  }

  function TimesEmptied(rounds: seq<Round>, job: (string, string)): nat {
    if rounds == [] then 0 else (if Empties(rounds[0], job) then 1 else 0) + TimesEmptied(rounds[1..], job)
  }

  lemma TryIs(s: State, r: Round)
    requires r.Try? && IsRound(s, r)
    ensures Enabled(s, Pop(KeyOf(r.popped), r.current)) && Enabled(Apply(s, Pop(KeyOf(r.popped), r.current)), EndOf(r))
    ensures After(s, EventsOf(r)) == Apply(Apply(s, Pop(KeyOf(r.popped), r.current)), EndOf(r))
  {
    var events := EventsOf(r);
    var pop, end := Pop(KeyOf(r.popped), r.current), EndOf(r);
    assert events[0] == pop && events[1..] == [end] && [end][1..] == [];
    assert ValidRun(Apply(s, pop), [end]) && Enabled(Apply(s, pop), end);
    assert After(Apply(s, pop), [end]) == Apply(Apply(s, pop), end);
  }

  lemma RoundEnds(s: State, r: Round, job: (string, string))
    requires IsRound(s, r)
    ensures After(s, EventsOf(r)).inHand.None?
    ensures After(s, EventsOf(r)).done[job] == s.done[job] + (if Empties(r, job) then 1 else 0)
  {
    match r
    case Idle =>
    case Try(_, _, _, _, _, _) => TryIs(s, r);
    case Reload(saved) => assert [Restart(saved)][1..] == [];
  }

  lemma {:induction false} RoundsKeepInv(classes: map<string, int>, jobs: set<(string, string)>, s: State,
                                         rounds: seq<Round>, job: (string, string))
    requires Classes(classes) && Inv(classes, jobs, s) && s.inHand.None? && ValidRounds(s, rounds)
    ensures Inv(classes, jobs, AfterRounds(s, rounds)) && AfterRounds(s, rounds).inHand.None?
    ensures AfterRounds(s, rounds).done[job] == s.done[job] + TimesEmptied(rounds, job)
    decreases rounds
  {
    if rounds != [] {
      RunKeepsInv(classes, jobs, s, EventsOf(rounds[0]));
      RoundEnds(s, rounds[0], job);
      RoundsKeepInv(classes, jobs, After(s, EventsOf(rounds[0])), rounds[1..], job);
    }
  }

  /** Over every run of attempts and restarts after a rotation, a job is in the schedule exactly as long
      as no attempt on it has found its pool empty, and that happens once at most. */
  lemma ScheduledUntilEmpty(leaving: string, staying: string, l: int, rounds: seq<Round>, job: (string, string))
    requires leaving != staying && job in RotationJobs(leaving, staying)
    requires ValidRounds(Start(leaving, staying, l), rounds)
    ensures Scheduled(AfterRounds(Start(leaving, staying, l), rounds), job) <==> TimesEmptied(rounds, job) == 0
    ensures TimesEmptied(rounds, job) <= 1
  {
    var s := Start(leaving, staying, l);
    RotationStarts(leaving, staying, l);
    RotationClassesDiffer(leaving, staying, l);
    RoundsKeepInv(RotationClasses(leaving, staying, l), RotationJobs(leaving, staying), s, rounds, job);
    assert InOnePlace(AfterRounds(s, rounds), job);
  }

  lemma {:induction false} EmptiedWhen(rounds: seq<Round>, job: (string, string)) returns (i: nat)
    requires TimesEmptied(rounds, job) > 0
    ensures i < |rounds| && Empties(rounds[i], job)
    decreases rounds
  {
    if Empties(rounds[0], job) {
      i := 0;
    } else {
      var j := EmptiedWhen(rounds[1..], job);
      i := j + 1;
    }
  }

  /** A pool whose job has left the schedule was seen empty: in one attempt every listed token was read
      at zero, and the native balance at no more than a quoted fee. */
  lemma LeftWasEmpty(leaving: string, staying: string, l: int, rounds: seq<Round>, job: (string, string)) returns (i: nat)
    requires leaving != staying && job in RotationJobs(leaving, staying)
    requires ValidRounds(Start(leaving, staying, l), rounds)
    requires !Scheduled(AfterRounds(Start(leaving, staying, l), rounds), job)
    ensures i < |rounds| && rounds[i].Try? && JobOf(rounds[i].popped) == job
    ensures forall t :: 0 <= t < |rounds[i].tokens| && Listed(rounds[i].tokens[t]) ==> TokenSeenEmpty(rounds[i].tokens[t])
    ensures NativeSeenEmpty(rounds[i].native)
  {
    ScheduledUntilEmpty(leaving, staying, l, rounds, job);
    i := EmptiedWhen(rounds, job);
    ReadEmptyWasSeen(rounds[i].tokens, rounds[i].nonce, rounds[i].native);
  }

  /** Every call of the fund-moving step is one round. */
  method StepIsRound(queue: MoveFundQueue, pools: PoolWindow.State, ready: bool, currentHeight: int, chainType: string,
                     dial: bool, tokens: seq<Token>, nonce: bool, native: NativeMove)
    returns (isMoveFund: bool, ghost r: Round)
    requires queue.Valid() && currentHeight <= MAXINT64 && PoolWindow.Consistent(pools)
    modifies queue
    ensures queue.Valid() && !r.Reload?
    ensures IsRound(Unhanded(old(queue.items)), r) && queue.items == After(Unhanded(old(queue.items)), EventsOf(r)).schedule
    ensures r.Try? ==> r == Try(r.popped, currentHeight, dial, tokens, nonce, native) && r.popped.chainType == chainType
  {
    ghost var s := Unhanded(queue.items);
    ghost var popped;
    isMoveFund, popped := MoveFundStep(queue, pools, ready, currentHeight, chainType, dial, tokens, nonce, native);
    r := Idle;
    if popped.Some? {
      r := Try(popped.value, currentHeight, dial, tokens, nonce, native);
      assert EventsOf(r)[1..] == [EndOf(r)] && [EndOf(r)][1..] == [];
      assert ValidRun(Apply(s, EventsOf(r)[0]), [EndOf(r)]);
      TryIs(s, r);
      assert popped.value.(height := popped.value.height + 0) == popped.value;
    }
  }

  ghost function Unhanded(s: Schedule): State {
    State(s, None, multiset{})
  }
}
