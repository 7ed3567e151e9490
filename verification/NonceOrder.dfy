/** Sending a batch in nonce order: waitToSend of pubchain/tx_send.go (waitAndSend of
    cosbridge/helper.go has the same shape), and the workers of one batch racing with other senders
    of the same pool account. */
module NonceOrder {
  import opened Common

  datatype WaitResult = Go | Passed | Failed

  /** The index of the first observation that ends the wait: a nonce at or above the target. */
  ghost predicate EndsAt(seen: seq<Option<nat>>, target: nat, k: nat) {
    && k < |seen| && seen[k].Some? && seen[k].value >= target
    && forall j :: 0 <= j < k ==> seen[j].None? || seen[j].value < target
  }

  /** The retry loop over the observed pending nonces; None is a failed query, and running out of
      observations is running out of time. */
  method WaitToSend(seen: seq<Option<nat>>, target: nat) returns (r: WaitResult)
    ensures r == Go <==> exists k: nat :: EndsAt(seen, target, k) && seen[k].value == target
    ensures r == Passed <==> exists k: nat :: EndsAt(seen, target, k) && seen[k].value > target
    ensures r == Failed <==> forall k :: 0 <= k < |seen| ==> seen[k].None? || seen[k].value < target
  {
    var alreadyPassed := false;
    r := Failed;
    var i := 0;
    while i < |seen|
      invariant 0 <= i <= |seen| && r == Failed && !alreadyPassed
      invariant forall j :: 0 <= j < i ==> seen[j].None? || seen[j].value < target
    {
      if seen[i].Some? {
        if seen[i].value == target {
          assert EndsAt(seen, target, i);
          return Go;
        }
        if seen[i].value > target {
          alreadyPassed := true;
          assert EndsAt(seen, target, i);
          break;
        }
      }
      i := i + 1;
    }
    if alreadyPassed {
      return Passed;
    }
  }

  /** What one worker has seen and done. */
  datatype Pc =
    | Waiting
    | Ready       // saw the pending nonce equal to its own
    | Sent        // its transaction took its nonce
    | Rejected    // it sent, but the nonce had been taken meanwhile
    | Quit        // saw a larger nonce, or gave up waiting

  /** Who took a nonce. */
  datatype Taker = Own(worker: nat) | Other

  /** taken[v] took nonce first + v; the pending nonce is first + |taken|. Worker i holds nonce
      first + i, as assigned by FeedTx. */
  datatype State = State(first: nat, pcs: seq<Pc>, taken: seq<Taker>)

  datatype Event =
    | Observe(i: nat)       // one poll of worker i
    | GiveUp(i: nat)        // its waiting time is over
    | Send(i: nat)
    | OtherSends            // another party uses the pending nonce

  function Init(first: nat, n: nat): State {
    State(first, seq(n, _ => Waiting), [])
  }

  function Pending(s: State): nat {
    s.first + |s.taken|
  }

  function Nonce(s: State, i: nat): nat {
    s.first + i
  }

  predicate Enabled(s: State, e: Event) {
    match e
    case Observe(i) => i < |s.pcs| && s.pcs[i].Waiting?
    case GiveUp(i) => i < |s.pcs| && s.pcs[i].Waiting?
    case Send(i) => i < |s.pcs| && s.pcs[i].Ready?
    case OtherSends => true
  }

  function Apply(s: State, e: Event): State
    requires Enabled(s, e)
  {
    match e
    case Observe(i) =>
      if Pending(s) == Nonce(s, i) then s.(pcs := s.pcs[i := Ready])
      else if Pending(s) > Nonce(s, i) then s.(pcs := s.pcs[i := Quit])
      else s
    case GiveUp(i) => s.(pcs := s.pcs[i := Quit])
    case Send(i) =>
      if Pending(s) == Nonce(s, i) then s.(pcs := s.pcs[i := Sent], taken := s.taken + [Own(i)])
      else s.(pcs := s.pcs[i := Rejected])
    case OtherSends => s.(taken := s.taken + [Other])
  }

  ghost predicate ValidRun(s: State, events: seq<Event>)
    decreases events
  {
    events == [] || (Enabled(s, events[0]) && ValidRun(Apply(s, events[0]), events[1..]))
  }

  ghost function After(s: State, events: seq<Event>): State
    requires ValidRun(s, events)
    decreases events
  {
    if events == [] then s else After(Apply(s, events[0]), events[1..])
  }

  /** A worker that came to its turn, or was overtaken after it. */
  predicate Reached(pc: Pc) {
    pc.Ready? || pc.Sent? || pc.Rejected?
  }

  ghost predicate Inv(s: State) {
    && (forall v :: 0 <= v < |s.taken| && s.taken[v].Own? ==>
          s.taken[v].worker == v && v < |s.pcs| && s.pcs[v].Sent?)
    && (forall i :: 0 <= i < |s.pcs| ==>
          && (Reached(s.pcs[i]) ==> i <= |s.taken|)
          && (s.pcs[i].Sent? ==> i < |s.taken| && s.taken[i] == Own(i))
          && (s.pcs[i].Rejected? ==> i < |s.taken| && s.taken[i] == Other))
  }

  /** One poll of a worker is one observation of its waiting loop: it goes on to send, quits, or keeps
      waiting. */
  lemma ObserveIsOnePoll(s: State, i: nat)
    requires Enabled(s, Observe(i))
    ensures var t := Apply(s, Observe(i));
            && t.taken == s.taken && |t.pcs| == |s.pcs| && (forall j :: 0 <= j < |s.pcs| && j != i ==> t.pcs[j] == s.pcs[j])
            && (t.pcs[i].Ready? <==> EndsAt([Some(Pending(s))], Nonce(s, i), 0) && Pending(s) == Nonce(s, i))
            && (t.pcs[i].Quit? <==> EndsAt([Some(Pending(s))], Nonce(s, i), 0) && Pending(s) > Nonce(s, i))
            && (t.pcs[i].Waiting? <==> Pending(s) < Nonce(s, i))
  {
    assert [Some(Pending(s))][0] == Some(Pending(s));
  }

  /** The workers up to k have sent, in order, and the others still wait. */
  ghost predicate SentUpTo(s: State, first: nat, n: nat, k: nat) {
    && s.first == first && |s.pcs| == n && k <= n && |s.taken| == k
    && (forall i :: 0 <= i < k ==> s.pcs[i].Sent? && s.taken[i] == Own(i))
    && (forall i :: k <= i < n ==> s.pcs[i].Waiting?)
  }

  /** It can all go well: polled and sending in turn, every worker of a batch gets its nonce. */
  lemma {:induction false} EveryoneCanSend(s: State, first: nat, n: nat, k: nat) returns (events: seq<Event>)
    requires SentUpTo(s, first, n, k)
    ensures ValidRun(s, events) && SentUpTo(After(s, events), first, n, n)
    decreases n - k
  {
    if k == n {
      events := [];
    } else {
      var t := Apply(s, Observe(k));
      var u := Apply(t, Send(k));
      assert SentUpTo(u, first, n, k + 1);
      var rest := EveryoneCanSend(u, first, n, k + 1);
      events := [Observe(k), Send(k)] + rest;
      assert events[1..] == [Send(k)] + rest && ([Send(k)] + rest)[1..] == rest;
      assert ValidRun(t, [Send(k)] + rest) && After(t, [Send(k)] + rest) == After(u, rest);
    }
  }

  lemma NobodySentYet(first: nat, n: nat)
    ensures SentUpTo(Init(first, n), first, n, 0)
  {
  }

  lemma StepKeepsInv(s: State, e: Event)
    requires Inv(s) && Enabled(s, e)
    ensures Inv(Apply(s, e))
    ensures s.taken <= Apply(s, e).taken && |Apply(s, e).pcs| == |s.pcs| && Apply(s, e).first == s.first
  {
  }

  lemma {:induction false} RunKeepsInv(s: State, events: seq<Event>)
    requires Inv(s) && ValidRun(s, events)
    ensures Inv(After(s, events))
    ensures s.taken <= After(s, events).taken
    ensures |After(s, events).pcs| == |s.pcs| && After(s, events).first == s.first
    decreases events
  {
    if events != [] {
      StepKeepsInv(s, events[0]);
      RunKeepsInv(Apply(s, events[0]), events[1..]);
    }
  }

  /** Nonce safety over every run of every batch: each nonce below that of a worker whose turn came
      was taken, by the worker that holds it or by another party. Each nonce goes to one transaction,
      and a worker's transaction is in place exactly when the worker reports it as sent. */
  lemma NothingJumpsTheQueue(first: nat, n: nat, events: seq<Event>, k: nat)
    requires ValidRun(Init(first, n), events) && k < n
    ensures var s := After(Init(first, n), events);
            && |s.pcs| == n
            && (Reached(s.pcs[k]) ==> forall j :: 0 <= j < k ==>
                  j < |s.taken| && (s.taken[j] == Other || (s.taken[j] == Own(j) && s.pcs[j].Sent?)))
            && (s.pcs[k].Sent? <==> k < |s.taken| && s.taken[k] == Own(k))
            && (s.pcs[k].Rejected? ==> k < |s.taken| && s.taken[k] == Other)
  {
    RunKeepsInv(Init(first, n), events);
  }

  /** Without other senders a worker that drops out stops everyone behind it. */
  lemma MissingNonceBlocks(first: nat, n: nat, events: seq<Event>, j: nat, k: nat)
    requires ValidRun(Init(first, n), events) && j < k < n
    requires OtherSends !in events
    ensures var s := After(Init(first, n), events);
            |s.pcs| == n && (Reached(s.pcs[k]) ==> s.pcs[j].Sent?)
  {
    NothingJumpsTheQueue(first, n, events, k);
    NoOtherTakers(Init(first, n), events);
  }

  lemma {:induction false} NoOtherTakers(s: State, events: seq<Event>)
    requires ValidRun(s, events) && OtherSends !in events && Other !in s.taken
    ensures Other !in After(s, events).taken
    decreases events
  {
    if events != [] {
      NoOtherTakers(Apply(s, events[0]), events[1..]);
    }
  }

  /** A worker that sends has seen its own nonce, and one that quit never sends. */
  lemma {:induction false} QuitIsFinal(s: State, events: seq<Event>, i: nat)
    requires ValidRun(s, events) && i < |s.pcs|
    ensures i < |After(s, events).pcs|
    ensures s.pcs[i].Quit? ==> After(s, events).pcs[i].Quit? && Send(i) !in events
    ensures s.pcs[i].Waiting? && After(s, events).pcs[i] in {Sent, Rejected} ==> Observe(i) in events
    decreases events
  {
    if events != [] {
      QuitIsFinal(Apply(s, events[0]), events[1..], i);
      assert forall e :: e in events <==> e == events[0] || e in events[1..];
    }
  }
}
