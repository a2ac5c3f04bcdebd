/** The select loop of controlLoop in discrete time, one unit a second. */
module Heartbeat {
  const INTERVAL: nat := 15
  const TIMEOUT: nat := 45

  /** What the loop selects: a tick of the ticker, with the fate of the ping it
      sends, a message from the mod, or the end of the connection. */
  datatype Event = Tick(pingSent: bool) | Pong | OtherMessage | ConnError

  datatype Timed = At(time: nat, event: Event)

  datatype Reason = PingFailed | PongTimeout | ConnectionError

  datatype Loop = Running(lastPong: nat) | Exited(at: nat, lastPong: nat, why: Reason)

  /** One turn of the loop. */
  function Turn(l: Loop, e: Timed): Loop {
    if l.Exited? then l else
    match e.event
    case Tick(pingSent) =>
      if !pingSent then Exited(e.time, l.lastPong, PingFailed)
      else if e.time - l.lastPong > TIMEOUT then Exited(e.time, l.lastPong, PongTimeout)
      else l
    case Pong => Running(e.time)
    case OtherMessage => l
    case ConnError => Exited(e.time, l.lastPong, ConnectionError)
  }

  function Run(start: nat, events: seq<Timed>): Loop {
    if events == [] then Running(start) else Turn(Run(start, events[..|events| - 1]), events[|events| - 1])
  }

  /** controlLoop on the events it gets to see. */
  method ControlLoop(start: nat, events: seq<Timed>) returns (l: Loop)
    ensures l == Run(start, events)
  {
    var lastPong: nat := start;
    var i := 0;
    while i < |events|
      invariant 0 <= i <= |events|
      invariant Run(start, events[..i]) == Running(lastPong)
    {
      var now := events[i].time;
      assert events[..i + 1][..i] == events[..i];
      match events[i].event {
        case Tick(pingSent) =>
          if !pingSent {
            ExitIsFinal(start, events, i + 1);
            return Exited(now, lastPong, PingFailed);
          }
          if now - lastPong > TIMEOUT {
            ExitIsFinal(start, events, i + 1);
            return Exited(now, lastPong, PongTimeout);
          }
        case Pong =>
          lastPong := now;
        case OtherMessage =>
        case ConnError =>
          ExitIsFinal(start, events, i + 1);
          return Exited(now, lastPong, ConnectionError);
      }
      i := i + 1;
    }
    assert events[..i] == events;
    return Running(lastPong);
  }

  lemma {:induction false} ExitIsFinal(start: nat, events: seq<Timed>, i: nat)
    requires i <= |events| && Run(start, events[..i]).Exited?
    ensures Run(start, events) == Run(start, events[..i])
    decreases |events|
  {
    if i == |events| {
      assert events[..i] == events;
    } else {
      var shorter := events[..|events| - 1];
      assert shorter[..i] == events[..i];
      ExitIsFinal(start, shorter, i);
    }
  }

  // ---------------------------------------------------------------- traces

  function Ticks(events: seq<Timed>): nat {
    if events == [] then 0
    else Ticks(events[..|events| - 1]) + (if events[|events| - 1].event.Tick? then 1 else 0)
  }

  /** Events come in the order of their times, and the ticks are on schedule: the
      n-th comes at start + 15 n, and nothing later comes before it. */
  predicate Punctual(start: nat, events: seq<Timed>) {
    events == [] ||
    var before := events[..|events| - 1];
    var e := events[|events| - 1];
    var due := start + INTERVAL * (Ticks(before) + 1);
    && Punctual(start, before)
    && start <= e.time <= due && (e.event.Tick? ==> e.time == due)
    && (before != [] ==> before[|before| - 1].time <= e.time)
  }

  lemma {:induction false} PunctualPrefix(start: nat, events: seq<Timed>, i: nat)
    requires Punctual(start, events) && i <= |events|
    ensures Punctual(start, events[..i])
    decreases |events|
  {
    if i == |events| {
      assert events[..i] == events;
    } else {
      assert events[..|events| - 1][..i] == events[..i];
      PunctualPrefix(start, events[..|events| - 1], i);
    }
  }

  lemma {:induction false} TimesAscend(start: nat, events: seq<Timed>, i: nat, j: nat)
    requires Punctual(start, events) && i <= j < |events|
    ensures start <= events[i].time <= events[j].time
    decreases |events|
  {
    var n := |events| - 1;
    if j < n {
      TimesAscend(start, events[..n], i, j);
    } else if i < n {
      TimesAscend(start, events[..n], i, n - 1);
    }
  }

  // ---------------------------------------------------------------- bounds

  /** How long the loop goes on without a pong: while it runs, its last tick is at
      most 45 seconds and no event more than 60 seconds after the last pong (or
      the start); and when it times out, that is at most 60 seconds and more than
      45 after the last pong. */
  lemma {:induction false} SilenceIsBounded(start: nat, events: seq<Timed>)
    requires Punctual(start, events)
    ensures match Run(start, events)
            case Running(lastPong) =>
              && start <= lastPong
              && start + INTERVAL * Ticks(events) <= lastPong + TIMEOUT
              && (events != [] ==> lastPong <= events[|events| - 1].time <= lastPong + 60)
            case Exited(at, lastPong, why) =>
              at <= lastPong + 60 && (why == PongTimeout ==> at > lastPong + TIMEOUT)
  {
    if events != [] {
      SilenceIsBounded(start, events[..|events| - 1]);
    }
  }

  /** Every ping that was due an answer got one: after ping k a pong is processed
      within less than 45 seconds, as far as the trace shows those 45 seconds. */
  ghost predicate Answered(start: nat, events: seq<Timed>) {
    forall k: nat | 1 <= k && k + 3 <= Ticks(events) :: AnsweredPing(start, events, k)
  }

  ghost predicate AnsweredPing(start: nat, events: seq<Timed>, k: nat) {
    exists i: nat :: i < |events| && events[i].event == Pong
               && start + INTERVAL * k <= events[i].time < start + INTERVAL * k + TIMEOUT
  }

  lemma {:induction false} LastPongIsLast(start: nat, events: seq<Timed>, i: nat)
    requires Punctual(start, events) && i < |events| && events[i].event == Pong && Run(start, events).Running?
    ensures events[i].time <= Run(start, events).lastPong
    decreases |events|
  {
    var n := |events| - 1;
    if i < n {
      LastPongIsLast(start, events[..n], i);
      TimesAscend(start, events, i, n);
    }
  }

  lemma {:induction false} TicksAscend(events: seq<Timed>, i: nat)
    requires i <= |events|
    ensures Ticks(events[..i]) <= Ticks(events)
    decreases |events|
  {
    if i == |events| {
      assert events[..i] == events;
    } else {
      assert events[..|events| - 1][..i] == events[..i];
      TicksAscend(events[..|events| - 1], i);
    }
  }

  // ------------------------------------------------- when the loop times out

  /** At tick `n` the start, or a pong processed before it, is at most 45 seconds
      ago. */
  ghost predicate InTime(start: nat, events: seq<Timed>, n: nat)
    requires n < |events|
  {
    || events[n].time - start <= TIMEOUT
    || exists i: nat :: i < n && events[i].event == Pong && events[n].time - events[i].time <= TIMEOUT
  }

  /** Event `n` does not end the loop. */
  ghost predicate Survives(start: nat, events: seq<Timed>, n: nat)
    requires n < |events|
  {
    match events[n].event
    case Tick(pingSent) => pingSent && InTime(start, events, n)
    case ConnError => false
    case Pong => true
    case OtherMessage => true
  }

  lemma {:induction false} LastPongIsSome(start: nat, events: seq<Timed>)
    requires Run(start, events).Running? && Run(start, events).lastPong != start
    ensures exists i: nat :: i < |events| && events[i].event == Pong && events[i].time == Run(start, events).lastPong
  {
    var n := |events| - 1;
    var before := events[..n];
    if events[n].event == Pong {
      assert events[n].time == Run(start, events).lastPong;
    } else {
      LastPongIsSome(start, before);
      var i: nat :| i < n && before[i].event == Pong && before[i].time == Run(start, before).lastPong;
      assert events[i] == before[i];
    }
  }

  /** At a tick whose ping could be sent, the loop goes on if and only if it is in
      time. */
  lemma TickTimesOutIff(start: nat, events: seq<Timed>, n: nat)
    requires Punctual(start, events) && n < |events| && events[n].event == Tick(true)
    requires Run(start, events[..n]).Running?
    ensures Run(start, events[..n + 1]).Running? <==> InTime(start, events, n)
  {
    var before := events[..n];
    assert events[..n + 1][..n] == before;
    PunctualPrefix(start, events, n);
    var lastPong := Run(start, before).lastPong;
    if events[n].time - lastPong <= TIMEOUT && lastPong != start {
      LastPongIsSome(start, before);
      var i: nat :| i < n && before[i].event == Pong && before[i].time == lastPong;
      assert events[i] == before[i];
    }
    forall i: nat | i < n && events[i].event == Pong ensures events[i].time <= lastPong {
      assert before[i] == events[i];
      LastPongIsLast(start, before, i);
    }
    SilenceIsBounded(start, before);
  }

  lemma {:induction false} RunsIff(start: nat, events: seq<Timed>, n: nat)
    requires Punctual(start, events) && n <= |events|
    ensures Run(start, events[..n]).Running? <==> forall j: nat | j < n :: Survives(start, events, j)
  {
    if n > 0 {
      RunsIff(start, events, n - 1);
      assert events[..n][..n - 1] == events[..n - 1];
      if Run(start, events[..n - 1]).Running? && events[n - 1].event == Tick(true) {
        TickTimesOutIff(start, events, n - 1);
      }
      assert Run(start, events[..n]).Running?
        <==> Run(start, events[..n - 1]).Running? && Survives(start, events, n - 1);
    }
  }

  /** Tick `n` is late, and nothing before it ends the loop. */
  ghost predicate FirstLate(start: nat, events: seq<Timed>, n: nat)
    requires n < |events|
  {
    && events[n].event == Tick(true) && !InTime(start, events, n)
    && forall j: nat | j < n :: Survives(start, events, j)
  }

  predicate TimedOut(l: Loop) {
    l.Exited? && l.why == PongTimeout
  }

  lemma {:induction false} TimesOutBy(start: nat, events: seq<Timed>, n: nat)
    requires Punctual(start, events) && n <= |events|
    ensures TimedOut(Run(start, events[..n])) <==> exists k: nat :: k < n && FirstLate(start, events, k)
  {
    if n > 0 {
      TimesOutBy(start, events, n - 1);
      assert events[..n][..n - 1] == events[..n - 1];
      RunsIff(start, events, n - 1);
      if Run(start, events[..n - 1]).Running? && events[n - 1].event == Tick(true) {
        TickTimesOutIff(start, events, n - 1);
      }
      assert TimedOut(Run(start, events[..n]))
        <==> TimedOut(Run(start, events[..n - 1])) || FirstLate(start, events, n - 1);
    }
  }

  /** When a run times out, in terms of its events alone: if and only if at some
      tick the start and every pong processed before it are more than 45 seconds
      ago, and nothing before that tick ended the loop. */
  lemma TimesOutIff(start: nat, events: seq<Timed>)
    requires Punctual(start, events)
    ensures TimedOut(Run(start, events)) <==> exists n: nat :: n < |events| && FirstLate(start, events, n)
  {
    TimesOutBy(start, events, |events|);
    assert events[..|events|] == events;
  }

  /** The pong that answers the ping three ticks before tick `n` comes before it. */
  lemma AnsweredIsInTime(start: nat, events: seq<Timed>, n: nat)
    requires n < |events| && Punctual(start, events) && Answered(start, events) && events[n].event.Tick?
    ensures InTime(start, events, n)
  {
    var upTo := events[..n + 1];
    PunctualPrefix(start, events, n + 1);
    TicksAscend(events, n + 1);
    var ticks := Ticks(upTo);
    if ticks >= 4 {
      assert AnsweredPing(start, events, ticks - 3);
      var i: nat :| i < |events| && events[i].event == Pong
                 && start + INTERVAL * (ticks - 3) <= events[i].time < start + INTERVAL * (ticks - 3) + TIMEOUT;
      if n <= i { TimesAscend(start, events, n, i); }
    }
  }

  /** A mod whose pings are all answered in less than 45 seconds is never timed
      out, on any run. */
  lemma AnsweredIsNeverTimedOut(start: nat, events: seq<Timed>)
    requires Punctual(start, events) && Answered(start, events)
    ensures !TimedOut(Run(start, events))
  {
    TimesOutIff(start, events);
    forall n: nat | n < |events| && events[n].event.Tick? ensures InTime(start, events, n) {
      AnsweredIsInTime(start, events, n);
    }
  }

  // ------------------------------------------------------- exactly 45 seconds

  /** One more event. */
  lemma Onward(start: nat, before: seq<Timed>, e: Timed) returns (after: seq<Timed>)
    requires Punctual(start, before) && (before != [] ==> before[|before| - 1].time <= e.time)
    requires var due := start + INTERVAL * (Ticks(before) + 1);
             start <= e.time <= due && (e.event.Tick? ==> e.time == due)
    ensures after == before + [e] && Punctual(start, after)
    ensures Ticks(after) == Ticks(before) + (if e.event.Tick? then 1 else 0)
    ensures Run(start, after) == Turn(Run(start, before), e)
  {
    after := before + [e];
    assert after[..|after| - 1] == before;
  }

  const START_OF_BOTH: seq<Timed> :=
    [At(15, Tick(true)), At(15, Pong), At(30, Tick(true)), At(45, Tick(true)), At(60, Tick(true))]

  lemma StartOfBoth()
    ensures Punctual(0, START_OF_BOTH) && Ticks(START_OF_BOTH) == 4 && Run(0, START_OF_BOTH) == Running(15)
  {
    var events := Onward(0, [], At(15, Tick(true)));
    events := Onward(0, events, At(15, Pong));
    events := Onward(0, events, At(30, Tick(true)));
    events := Onward(0, events, At(45, Tick(true)));
    events := Onward(0, events, At(60, Tick(true)));
    assert events == START_OF_BOTH;
  }

  /** A ping that is answered after exactly 45 seconds: the loop times out if the
      tick at that moment is selected first, and goes on if the pong is. */
  lemma AnswerAtTimeoutDependsOnOrder()
    ensures var tickFirst := START_OF_BOTH + [At(75, Tick(true))] + [At(75, Pong)];
            Punctual(0, tickFirst) && Run(0, tickFirst) == Exited(75, 15, PongTimeout)
    ensures var pongFirst := START_OF_BOTH + [At(75, Pong)] + [At(75, Tick(true))];
            Punctual(0, pongFirst) && Run(0, pongFirst) == Running(75)
  {
    StartOfBoth();
    var tickFirst := Onward(0, START_OF_BOTH, At(75, Tick(true)));
    tickFirst := Onward(0, tickFirst, At(75, Pong));
    var pongFirst := Onward(0, START_OF_BOTH, At(75, Pong));
    pongFirst := Onward(0, pongFirst, At(75, Tick(true)));
  }
}
