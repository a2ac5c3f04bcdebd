/** connect and listenForCommands of the mod as code: they take the steps of a
    connect thread of TunnelRuns, and no others. */
module TunnelClient {
  import opened Wrappers
  import opened TunnelRuns

  // -------------------------------------------------- what one thread does

  /** One step of a connect thread with what it saw: the flag, the executor and
      whether it had been interrupted. */
  datatype Seen = Seen(running: bool, executorUp: bool, interrupt: Option<nat>, step: Step)

  function Noticed(x: Client, interrupt: Option<nat>): Client {
    if x.interrupt.Some? || x.pc.CEnd? then x else x.(interrupt := interrupt)
  }

  /** Where a thread is after the steps of `log`, if it can take them. */
  function Played(x: Client, log: seq<Seen>): Option<Client> {
    if log == [] then Some(x) else
    var last := log[|log| - 1];
    match Played(x, log[..|log| - 1])
    case None => None
    case Some(y) =>
      if CanStep(y, last.step) then Some(Stepped(last.running, last.executorUp, Noticed(y, last.interrupt), last.step))
      else None
  }

  lemma PlayedMore(x: Client, log: seq<Seen>, s: Seen, y: Client, z: Client)
    requires Played(x, log) == Some(y) && CanStep(y, s.step) && (y.interrupt == None || y.interrupt == s.interrupt)
    requires z == Stepped(s.running, s.executorUp, y.(interrupt := s.interrupt), s.step)
    ensures Played(x, log + [s]) == Some(z)
  {
    assert (log + [s])[..|log|] == log;
  }

  lemma SteppedAttempts(running: bool, executorUp: bool, x: Client, s: Step)
    requires AttemptsOk(x) && CanStep(x, s)
    ensures AttemptsOk(Stepped(running, executorUp, x, s))
    ensures Stepped(running, executorUp, x, s).auths == x.auths + (if s.SendAuth? then 1 else 0)
    ensures Stepped(running, executorUp, x, s).refused <==> x.refused || s == GetReply(AuthErr(true))
    ensures x.refused ==> !s.SendAuth?
  {
  }

  function Auths(log: seq<Seen>): nat {
    if log == [] then 0 else Auths(log[..|log| - 1]) + (if log[|log| - 1].step.SendAuth? then 1 else 0)
  }

  predicate Refusals(log: seq<Seen>) {
    exists i :: 0 <= i < |log| && log[i].step == GetReply(AuthErr(true))
  }

  lemma RefusalsMore(log: seq<Seen>)
    requires log != []
    ensures Refusals(log) <==> Refusals(log[..|log| - 1]) || log[|log| - 1].step == GetReply(AuthErr(true))
  {
    var n := |log| - 1;
    if Refusals(log) {
      var i :| 0 <= i <= n && log[i].step == GetReply(AuthErr(true));
      if i < n { assert log[..n][i] == log[i]; }
    }
    if Refusals(log[..n]) {
      var i :| 0 <= i < n && log[..n][i].step == GetReply(AuthErr(true));
      assert log[i] == log[..n][i];
    }
  }

  /** What a thread knows of its log. */
  lemma {:induction false} LogCounts(x: Client, log: seq<Seen>)
    requires AttemptsOk(x) && x.auths == 0 && !x.refused && Played(x, log).Some?
    ensures AttemptsOk(Played(x, log).value)
    ensures Played(x, log).value.auths == Auths(log)
    ensures Played(x, log).value.refused <==> Refusals(log)
  {
    if log != [] {
      var n := |log| - 1;
      LogCounts(x, log[..n]);
      RefusalsMore(log);
      var y := Noticed(Played(x, log[..n]).value, log[n].interrupt);
      SteppedAttempts(log[n].running, log[n].executorUp, y, log[n].step);
    }
  }

  /** Thread `y` with what it saw takes the step, and becomes `z`. */
  predicate TakesStep(y: Client, s: Seen, z: Client) {
    AttemptsOk(y) && CanStep(y, s.step) && z == Stepped(s.running, s.executorUp, Noticed(y, s.interrupt), s.step)
  }

  /** The thread before and after each step of the log. */
  ghost predicate IsTrace(ys: seq<Client>, log: seq<Seen>) {
    |ys| == |log| + 1 && forall i | 0 <= i < |log| :: StepOf(ys, log, i)
  }

  predicate StepOf(ys: seq<Client>, log: seq<Seen>, i: int)
    requires |ys| == |log| + 1 && 0 <= i < |log|
  {
    TakesStep(ys[i], log[i], ys[i + 1])
  }

  lemma {:induction false} TraceOf(x: Client, log: seq<Seen>) returns (ys: seq<Client>)
    requires AttemptsOk(x) && x.auths == 0 && !x.refused && Played(x, log).Some?
    ensures IsTrace(ys, log) && ys[0] == x && Played(x, log) == Some(ys[|log|])
  {
    if log == [] {
      ys := [x];
    } else {
      var n := |log| - 1;
      var before := TraceOf(x, log[..n]);
      LogCounts(x, log[..n]);
      ys := TraceMore(before, log[..n], log[n], Played(x, log).value);
      assert log[..n] + [log[n]] == log;
    }
  }

  lemma TraceMore(ys: seq<Client>, log: seq<Seen>, s: Seen, z: Client) returns (zs: seq<Client>)
    requires IsTrace(ys, log) && TakesStep(ys[|log|], s, z)
    ensures zs == ys + [z] && IsTrace(zs, log + [s])
  {
    zs := ys + [z];
    forall i | 0 <= i < |log + [s]| ensures StepOf(zs, log + [s], i) {
      if i < |log| { assert StepOf(ys, log, i); }
    }
  }

  lemma FinishingOnward(y: Client, s: Seen, z: Client)
    requires TakesStep(y, s, z) && Finishing(y)
    ensures !s.step.SendAuth? && Finishing(z)
  {
    FinishingSendsNoMore(s.running, s.executorUp, Noticed(y, s.interrupt), s.step);
  }

  lemma {:induction false} FinishedSendsNone(ys: seq<Client>, log: seq<Seen>, i: nat, j: nat)
    requires IsTrace(ys, log) && i <= j < |log| && Finishing(ys[i])
    ensures Finishing(ys[j]) && !log[j].step.SendAuth?
    decreases j
  {
    assert StepOf(ys, log, j);
    if i < j {
      FinishedSendsNone(ys, log, i, j - 1);
      assert StepOf(ys, log, j - 1);
      FinishingOnward(ys[j - 1], log[j - 1], ys[j]);
    }
    FinishingOnward(ys[j], log[j], ys[j + 1]);
  }

  /** An AUTH after an AUTH_ERR: only if that had no reason, was read before the
      fifth attempt, and by a thread not interrupted until then. */
  lemma AuthAfterErrNeeds(ys: seq<Client>, log: seq<Seen>, i: nat, j: nat)
    requires IsTrace(ys, log) && i < j < |log| && log[j].step.SendAuth?
    requires log[i].step.GetReply? && log[i].step.reply.AuthErr?
    ensures !log[i].step.reply.hasReason && ys[i].attempt < 5
    ensures ys[i].interrupt == None && log[i].interrupt == None
  {
    assert StepOf(ys, log, i);
    var y := Noticed(ys[i], log[i].interrupt);
    ErrFinishesIff(log[i].running, log[i].executorUp, y, log[i].step.reply.hasReason);
    if Finishing(ys[i + 1]) { FinishedSendsNone(ys, log, i + 1, j); }
  }

  /** However a thread gets on, the AUTHs in its log are at most five, and none
      comes after an AUTH_ERR with a reason. */
  lemma LogIsBounded(x: Client, log: seq<Seen>)
    requires AttemptsOk(x) && x.auths == 0 && !x.refused && Played(x, log).Some?
    ensures AttemptsOk(Played(x, log).value)
    ensures Played(x, log).value.auths == Auths(log) <= MAX_RECONNECT_ATTEMPTS
    ensures Played(x, log).value.refused <==> Refusals(log)
    ensures forall i, j | 0 <= i < j < |log| && log[i].step == GetReply(AuthErr(true)) :: !log[j].step.SendAuth?
  {
    LogCounts(x, log);
    var ys := TraceOf(x, log);
    NoneAfterReason(ys, log);
  }

  lemma NoneAfterReason(ys: seq<Client>, log: seq<Seen>)
    requires IsTrace(ys, log)
    ensures forall i, j | 0 <= i < j < |log| && log[i].step == GetReply(AuthErr(true)) :: !log[j].step.SendAuth?
  {
    forall i, j | 0 <= i < j < |log| && log[i].step == GetReply(AuthErr(true)) ensures !log[j].step.SendAuth? {
      if log[j].step.SendAuth? { AuthAfterErrNeeds(ys, log, i, j); }
    }
  }

  // --------------------------------------- the logs, told from the steps alone

  /** The attempt a thread is in: one more than it has given up. */
  function AttemptIn(log: seq<Seen>): nat {
    if log == [] then 1 else AttemptIn(log[..|log| - 1]) + (if log[|log| - 1].step.Advance? then 1 else 0)
  }

  predicate WasInterrupted(log: seq<Seen>) {
    log != [] && (WasInterrupted(log[..|log| - 1]) || log[|log| - 1].interrupt.Some?)
  }

  /** The step after `s`: in the loop of connect, its attempts, and listenForCommands.
      There is none after the flag was cleared, nor after a delay that was
      interrupted. */
  predicate ComesAfter(s: Seen, attempt: nat, interrupted: bool, next: Step) {
    match s.step
    case Test => if s.running && attempt <= 5 then if attempt > 1 then next == Sleep else next.Dial? else next == Check
    case Sleep => next.Dial? && !interrupted
    case Dial(ok) => if ok then next.SendAuth? else next == Advance
    case SendAuth(ok) => if ok then next.GetReply? else next == Advance
    case GetReply(reply) =>
      if reply == AuthOk then next == Listen else if reply == AuthErr(true) then next == GiveUp else next == Advance
    case Listen => if s.running then next.GetCommand? else next == Advance
    case GetCommand(command) =>
      if command == Unexpected || command == Ping(true) || (command == NewConn && s.executorUp) then next == Listen
      else next == Advance
    case Advance => next == Test
    case Check => s.running && next == Clear
    case GiveUp => false
    case Clear => false
  }

  /** `next` can be the step after `log`. */
  predicate GoesOn(log: seq<Seen>, next: Step) {
    if log == [] then next == Test else ComesAfter(log[|log| - 1], AttemptIn(log), WasInterrupted(log), next)
  }

  predicate IsLog(log: seq<Seen>) {
    log == [] || (IsLog(log[..|log| - 1]) && GoesOn(log[..|log| - 1], log[|log| - 1].step))
  }

  lemma SteppedCounts(y: Client, s: Seen)
    requires CanStep(y, s.step)
    ensures var z := Stepped(s.running, s.executorUp, Noticed(y, s.interrupt), s.step);
            && z.attempt == y.attempt + (if s.step.Advance? then 1 else 0)
            && (z.interrupt.Some? <==> y.interrupt.Some? || s.interrupt.Some?)
  {
  }

  predicate Allows(y: Client, s: Seen, next: Step)
    requires CanStep(y, s.step)
  {
    var z := Stepped(s.running, s.executorUp, Noticed(y, s.interrupt), s.step);
    CanStep(z, next) <==> ComesAfter(s, z.attempt, z.interrupt.Some?, next)
  }

  lemma LoopAllows(y: Client, s: Seen, next: Step)
    requires CanStep(y, s.step) && (s.step.Test? || s.step.Sleep? || s.step.Advance?)
    ensures Allows(y, s, next)
  {
  }

  lemma EndAllows(y: Client, s: Seen, next: Step)
    requires CanStep(y, s.step) && (s.step.Check? || s.step.GiveUp? || s.step.Clear?)
    ensures Allows(y, s, next)
  {
  }

  lemma AttemptAllows(y: Client, s: Seen, next: Step)
    requires CanStep(y, s.step) && (s.step.Dial? || s.step.SendAuth? || s.step.GetReply?)
    ensures Allows(y, s, next)
  {
  }

  lemma ListenAllows(y: Client, s: Seen, next: Step)
    requires CanStep(y, s.step) && (s.step.Listen? || s.step.GetCommand?)
    ensures Allows(y, s, next)
  {
  }

  lemma SteppedAllows(y: Client, s: Seen, next: Step)
    requires CanStep(y, s.step)
    ensures Allows(y, s, next)
  {
    if s.step.Test? || s.step.Sleep? || s.step.Advance? { LoopAllows(y, s, next); }
    else if s.step.Check? || s.step.GiveUp? || s.step.Clear? { EndAllows(y, s, next); }
    else if s.step.Listen? || s.step.GetCommand? { ListenAllows(y, s, next); }
    else { AttemptAllows(y, s, next); }
  }

  lemma {:induction false} PlayedAllows(period: nat, clean: bool, log: seq<Seen>, next: Step)
    requires Played(Submitted(period, clean), log).Some?
    ensures var y := Played(Submitted(period, clean), log).value;
            && (CanStep(y, next) <==> GoesOn(log, next))
            && y.attempt == AttemptIn(log) && (y.interrupt.Some? <==> WasInterrupted(log))
  {
    if log != [] {
      var n := |log| - 1;
      PlayedAllows(period, clean, log[..n], next);
      SteppedCounts(Played(Submitted(period, clean), log[..n]).value, log[n]);
      SteppedAllows(Played(Submitted(period, clean), log[..n]).value, log[n], next);
    }
  }

  /** The logs a connect thread can have are exactly these. */
  lemma {:induction false} PlayableIff(period: nat, clean: bool, log: seq<Seen>)
    ensures Played(Submitted(period, clean), log).Some? <==> IsLog(log)
  {
    if log != [] {
      var n := |log| - 1;
      PlayableIff(period, clean, log[..n]);
      if Played(Submitted(period, clean), log[..n]).Some? {
        PlayedAllows(period, clean, log[..n], log[n].step);
      }
    }
  }

  // ------------------------------------------------- listening and waiting

  /** The last step of a listenForCommands that returns, and of one that throws. */
  predicate Returns(last: Seen) {
    || (last.step == Listen && !last.running)
    || last.step == GetCommand(LinkFails) || last.step == GetCommand(Ping(false))
  }

  predicate Throws(last: Seen) {
    last.step == GetCommand(NewConn) && !last.executorUp
  }

  predicate Listening(x: Client) {
    x.pc.CListen? || x.pc.CRead?
  }

  /** listenForCommands ended between steps `i` and `j`. */
  predicate EndsBetween(log: seq<Seen>, i: int, j: int) {
    exists k :: 0 <= k < |log| && i < k < j && (Returns(log[k]) || Throws(log[k]))
  }

  lemma ListensOn(y: Client, s: Seen, z: Client)
    requires TakesStep(y, s, z) && Listening(y)
    ensures Listening(z) <==> !Returns(s) && !Throws(s)
    ensures !s.step.SendAuth? && !z.pc.CEnd?
  {
  }

  lemma {:induction false} ListensUntilItEnds(ys: seq<Client>, log: seq<Seen>, i: nat, j: nat)
    requires IsTrace(ys, log) && i < j <= |log| && Listening(ys[i + 1])
    ensures Listening(ys[j]) || EndsBetween(log, i, j)
    decreases j
  {
    if i + 1 < j {
      ListensUntilItEnds(ys, log, i, j - 1);
      assert StepOf(ys, log, j - 1);
      if Listening(ys[j - 1]) { ListensOn(ys[j - 1], log[j - 1], ys[j]); }
    }
  }

  /** Step `i` is a Listen if there is one, and no AUTH follows, nor the end of the
      thread, before listenForCommands has returned or thrown. */
  predicate HeardOut(log: seq<Seen>, ended: bool, i: int)
    requires 0 < i <= |log|
  {
    && (i < |log| ==> log[i].step == Listen)
    && (forall j | i < j < |log| && log[j].step.SendAuth? :: EndsBetween(log, i - 1, j))
    && (ended ==> EndsBetween(log, i - 1, |log|))
  }

  /** Every AUTH_OK is followed by listenForCommands, to its end. */
  ghost predicate Listens(log: seq<Seen>, ended: bool) {
    forall i | 0 <= i < |log| && log[i].step == GetReply(AuthOk) :: HeardOut(log, ended, i + 1)
  }

  lemma OkIsHeardOut(ys: seq<Client>, log: seq<Seen>, i: nat)
    requires IsTrace(ys, log) && i < |log| && log[i].step == GetReply(AuthOk)
    ensures HeardOut(log, ys[|log|].pc.CEnd?, i + 1)
  {
    assert StepOf(ys, log, i);
    if i + 1 < |log| { assert StepOf(ys, log, i + 1); }
    forall j | i + 1 < j < |log| && log[j].step.SendAuth? ensures EndsBetween(log, i, j) {
      ListensUntilItEnds(ys, log, i, j);
      assert StepOf(ys, log, j);
    }
    ListensUntilItEnds(ys, log, i, |log|);
  }

  /** The delay lies before the next attempt. */
  predicate Waits(x: Client) {
    !x.pc.CDial? && !x.pc.CAuth? && (x.pc.CTest? ==> x.attempt > 1)
  }

  predicate SleepsBetween(log: seq<Seen>, i: int, j: int) {
    exists k :: 0 <= k < |log| && i < k < j && log[k].step == Sleep
  }

  lemma WaitsOn(y: Client, s: Seen, z: Client)
    requires TakesStep(y, s, z) && (Waits(y) || s.step.SendAuth?) && s.step != Sleep
    ensures Waits(z)
  {
  }

  lemma {:induction false} WaitsUntilItSleeps(ys: seq<Client>, log: seq<Seen>, i: nat, j: nat)
    requires IsTrace(ys, log) && i < j <= |log| && log[i].step.SendAuth?
    ensures Waits(ys[j]) || SleepsBetween(log, i, j)
    decreases j
  {
    assert StepOf(ys, log, j - 1);
    if i + 1 < j { WaitsUntilItSleeps(ys, log, i, j - 1); }
    if log[j - 1].step != Sleep && (i + 1 == j || Waits(ys[j - 1])) { WaitsOn(ys[j - 1], log[j - 1], ys[j]); }
  }

  /** Between any two AUTHs lies a delay. */
  ghost predicate Delays(log: seq<Seen>) {
    forall i, j | 0 <= i < j < |log| && log[i].step.SendAuth? && log[j].step.SendAuth? :: SleepsBetween(log, i, j)
  }

  lemma AuthsAreApart(ys: seq<Client>, log: seq<Seen>)
    requires IsTrace(ys, log)
    ensures Delays(log)
  {
    forall i, j | 0 <= i < j < |log| && log[i].step.SendAuth? && log[j].step.SendAuth?
      ensures SleepsBetween(log, i, j)
    {
      WaitsUntilItSleeps(ys, log, i, j);
      assert StepOf(ys, log, j);
    }
  }

  /** However a thread gets on, after every AUTH_OK it listens for commands until
      listenForCommands returns or throws, and it sleeps between any two AUTHs. */
  lemma LogListens(x: Client, log: seq<Seen>)
    requires AttemptsOk(x) && x.auths == 0 && !x.refused && Played(x, log).Some?
    ensures Listens(log, Played(x, log).value.pc.CEnd?) && Delays(log)
  {
    var ys := TraceOf(x, log);
    AuthsAreApart(ys, log);
    forall i | 0 <= i < |log| && log[i].step == GetReply(AuthOk)
      ensures HeardOut(log, Played(x, log).value.pc.CEnd?, i + 1)
    {
      OkIsHeardOut(ys, log, i);
    }
  }

  // ------------------------------------------ the threads of the machine

  function Submitted(period: nat, clean: bool): Client {
    Client(period, clean, 1, 0, false, None, CTest)
  }

  /** `x` is where `log` takes a thread, but for an interrupt it has not noticed. */
  ghost predicate Follows(x: Client, log: seq<Seen>) {
    var y := Played(Submitted(x.period, x.clean), log);
    y.Some? && x == y.value.(interrupt := x.interrupt) && (y.value.interrupt.Some? ==> y.value.interrupt == x.interrupt)
  }

  ghost predicate Followed(x: Client) {
    exists log :: Follows(x, log)
  }

  lemma FollowsOn(running: bool, executorUp: bool, x: Client, s: Step)
    requires Followed(x) && CanStep(x, s)
    ensures Followed(Stepped(running, executorUp, x, s))
  {
    var log :| Follows(x, log);
    var seen := Seen(running, executorUp, x.interrupt, s);
    var y := Played(Submitted(x.period, x.clean), log).value;
    var z := Stepped(running, executorUp, x, s);
    assert x == y.(interrupt := x.interrupt);
    PlayedMore(Submitted(x.period, x.clean), log, seen, y, z);
    SteppedKeeps(running, executorUp, x, s);
    assert Follows(z, log + [seen]);
  }

  lemma SteppedKeeps(running: bool, executorUp: bool, x: Client, s: Step)
    requires CanStep(x, s)
    ensures var z := Stepped(running, executorUp, x, s);
            z.interrupt == x.interrupt && z.period == x.period && z.clean == x.clean
  {
  }

  lemma FollowedInterrupt(x: Client, i: nat)
    requires Followed(x) && x.interrupt == None
    ensures Followed(x.(interrupt := Some(i)))
  {
    var log :| Follows(x, log);
    assert Follows(x.(interrupt := Some(i)), log);
  }

  lemma FollowedStart(period: nat, clean: bool)
    ensures Followed(Submitted(period, clean))
  {
    assert Follows(Submitted(period, clean), []);
  }

  lemma StepFollows(st: State, t: Tid, a: Action)
    requires Can(st, t, a) && forall c | c in st.clients :: Followed(st.clients[c])
    ensures forall c | c in Do(st, t, a).clients :: Followed(Do(st, t, a).clients[c])
  {
    var st' := Do(st, t, a);
    forall c | c in st'.clients ensures Followed(st'.clients[c]) {
      if c in st.clients && st'.clients[c] == st.clients[c] {
      } else if a.Submit? {
        FollowedStart(st.starters[t].period, st.starters[t].clean);
      } else if a.ShutDown? {
        FollowedInterrupt(st.clients[c], st.stoppers[t].period);
      } else {
        FollowsOn(st.running, st.executorUp, st.clients[t], a.step);
      }
    }
  }

  /** In every run each connect thread is where some log takes it. */
  lemma {:induction false} ThreadsFollowLogs(turns: seq<Turn>, st: State)
    requires Leads(IDLE, turns, st)
    ensures forall c | c in st.clients :: Followed(st.clients[c])
    decreases |turns|
  {
    if turns != [] {
      var mid :| Leads(IDLE, Front(turns), mid) && Takes(mid, Last(turns), st);
      ThreadsFollowLogs(Front(turns), mid);
      StepFollows(mid, Last(turns).t, Last(turns).a);
    }
  }

  // --------------------------------------------------------------- the code

  /** What goes on around a connect thread: the others may change the flag and the
      executor, and interrupt it, at any time. `start` is the thread at its
      submission, `now` as it is, and `log` what it did. `commands` bounds what the relay sends
      before the control connection ends. */
  class World {
    const start: Client
    var now: Client
    var running: bool
    var executorUp: bool
    var interrupt: Option<nat>
    var commands: nat
    var log: seq<Seen>

    constructor (period: nat, clean: bool, commands: nat)
      ensures Valid() && now == start == Submitted(period, clean)
      ensures this.commands == commands && log == []
    {
      start, this.commands := Submitted(period, clean), commands;
      now := Submitted(period, clean);
      running, executorUp, interrupt, log := true, true, None, [];
    }

    predicate Valid()
      reads this
    {
      Played(start, log) == Some(now) && now.interrupt == interrupt
    }

    /** The others do something. */
    method Meanwhile()
      modifies this`running, this`executorUp, this`interrupt
      ensures old(interrupt).Some? ==> interrupt == old(interrupt)
    {
      running, executorUp := *, *;
      if interrupt == None {
        interrupt := *;
      }
    }

    /** One step, after the others did something, and its place in the log. */
    method Record(s: Step)
      requires Valid() && CanStep(now, s)
      modifies this`running, this`executorUp, this`interrupt, this`log, this`now
      ensures Valid() && now == Stepped(running, executorUp, old(now).(interrupt := interrupt), s)
      ensures log == old(log) + [Seen(running, executorUp, interrupt, s)]
    {
      ghost var before, history := now, log;
      Meanwhile();
      var seen := Seen(running, executorUp, interrupt, s);
      now := Stepped(running, executorUp, now.(interrupt := interrupt), s);
      log := log + [seen];
      PlayedMore(start, history, seen, before, now);
      SteppedKeeps(running, executorUp, before.(interrupt := interrupt), s);
    }

    method Do(s: Step)
      requires Valid() && CanStep(now, s)
      modifies this`running, this`executorUp, this`interrupt, this`log, this`now
      ensures Valid() && now == Stepped(running, executorUp, old(now).(interrupt := interrupt), s)
      ensures old(log) <= log
    {
      Record(s);
    }

    /** The two steps that clear the flag. */
    method ClearFlag(s: Step)
      requires Valid() && CanStep(now, s) && (s.GiveUp? || s.Clear?)
      modifies this`running, this`executorUp, this`interrupt, this`log, this`now
      ensures Valid() && now == Stepped(true, true, old(now).(interrupt := interrupt), s) && !running
      ensures old(log) <= log
    {
      Do(s);
      running := false;
    }

    /** The next command, or the end of the connection. */
    method NextCommand() returns (c: Command)
      requires Valid() && now.pc == CRead
      modifies this
      ensures Valid() && now == Stepped(running, executorUp, old(now).(interrupt := interrupt), GetCommand(c))
      ensures if c == LinkFails then commands <= old(commands) else commands < old(commands)
      ensures log == old(log) + [Seen(running, executorUp, interrupt, GetCommand(c))]
    {
      c := LinkFails;
      if commands > 0 {
        commands := commands - 1;
        c := *;
      }
      Record(GetCommand(c));
    }
  }

  /** listenForCommands: returns when it finds the flag clear or the link fails, also
      in the answer to a ping, and throws (`ok` is false) when the executor rejects
      a handler. */
  method ListenForCommands(w: World) returns (ok: bool)
    requires w.Valid() && w.now.pc == CListen
    modifies w
    ensures w.Valid() && w.now == old(w.now).(pc := CNext, interrupt := w.interrupt)
    ensures old(w.log) < w.log
    ensures if ok then Returns(w.log[|w.log| - 1]) else Throws(w.log[|w.log| - 1])
  {
    w.Record(Listen);
    while w.running
      invariant w.Valid() && old(w.log) < w.log
      invariant w.log[|w.log| - 1].step == Listen && w.log[|w.log| - 1].running == w.running
      invariant w.now == old(w.now).(pc := if w.running then CRead else CNext, interrupt := w.interrupt)
      decreases w.commands
    {
      var command := w.NextCommand();
      match command {
        case NewConn =>
          if !w.executorUp {
            return false;
          }
        case Ping(answered) =>
          if !answered {
            return true;
          }
        case Unexpected =>
        case LinkFails =>
          return true;
      }
      w.Record(Listen);
    }
    return true;
  }

  /** The body of the loop in connect; `again` tells whether the loop goes on. */
  method Attempt(w: World, attempt: nat) returns (again: bool)
    requires w.Valid() && w.now.attempt == attempt && w.now.pc == if attempt > 1 then CSleep else CDial
    modifies w
    ensures w.Valid() && w.now.attempt == attempt && old(w.log) <= w.log
    ensures if again then w.now.pc == CNext
            else w.now.pc == CEnd(Interrupted) || (w.now.pc == CEnd(Refused) && !w.running)
  {
    if attempt > 1 {
      w.Do(Sleep);
      if w.interrupt.Some? {
        return false;
      }
    }
    var ok: bool := *;
    w.Do(Dial(ok));
    if !ok {
      return true;
    }
    ok := *;
    w.Do(SendAuth(ok));
    if !ok {
      return true;
    }
    var reply: Reply := *;
    w.Do(GetReply(reply));
    if reply.AuthOk? {
      var thrown := ListenForCommands(w);
    } else if reply.AuthErr? && reply.hasReason {
      w.ClearFlag(GiveUp);
      return false;
    }
    return true;
  }

  /** connect, whatever the others do meanwhile: it ends, and everything it did on
      the way are steps of its thread. It sent at most five AUTHs, with a delay
      between any two, and none after an AUTH_ERR with a reason. After every AUTH_OK
      it listened for commands to the end. Unless it was interrupted the flag is
      clear at that moment. */
  method Connect(w: World)
    requires w.Valid() && w.log == [] && w.start.attempt == 1 && w.start.pc == CTest
    requires w.start.auths == 0 && !w.start.refused
    modifies w
    ensures w.Valid() && w.now.pc.CEnd?
    ensures w.now.pc != CEnd(Interrupted) ==> !w.running
    ensures Auths(w.log) <= MAX_RECONNECT_ATTEMPTS
    ensures forall i, j | 0 <= i < j < |w.log| && w.log[i].step == GetReply(AuthErr(true)) :: !w.log[j].step.SendAuth?
    ensures Refusals(w.log) <==> w.now.pc == CEnd(Refused)
    ensures Listens(w.log, true) && Delays(w.log)
  {
    var attempt := 1;
    w.Do(Test);
    while attempt <= MAX_RECONNECT_ATTEMPTS && w.running
      invariant w.Valid() && 1 <= attempt <= 6 && w.now.attempt == attempt
      invariant w.now.pc == if attempt <= MAX_RECONNECT_ATTEMPTS && w.running
                              then if attempt > 1 then CSleep else CDial
                              else CFinal
      decreases 6 - attempt
    {
      var again := Attempt(w, attempt);
      if !again {
        LogIsBounded(w.start, w.log);
        LogListens(w.start, w.log);
        return;
      }
      w.Do(Advance);
      attempt := attempt + 1;
      w.Do(Test);
    }
    w.Do(Check);
    if w.running {
      w.ClearFlag(Clear);
    }
    LogIsBounded(w.start, w.log);
    LogListens(w.start, w.log);
  }
}
