/** start, stop and connect of the mod's tunnel client, as threads that share the
    running flag and the executor. One step is one access to the flag or the
    executor, or one call that may block. Any number of starts, stops and
    connect threads, in any interleaving. */
module TunnelRuns {
  import opened Wrappers

  type Tid = int

  const MAX_RECONNECT_ATTEMPTS: nat := 5

  // ------------------------------------------------------------------ state

  datatype Why = Refused | Exhausted | Stopped | Interrupted

  /** Where a connect thread is. */
  datatype Pc =
    | CTest                      // the loop condition
    | CSleep                     // the delay before a further attempt
    | CDial                      // about to connect
    | CAuth                      // connected, about to send AUTH
    | CReply                     // waits for the answer
    | CListen                    // listenForCommands, about to read the flag
    | CRead                      // waits for a command
    | CNext                      // this attempt is over
    | CGiveUp                    // after AUTH_ERR, about to clear the flag
    | CFinal                     // after the loop, about to read the flag
    | CClear                     // found it set, about to clear it
    | CEnd(why: Why)

  /** A connect thread. `period` says which winning start submitted it, `clean`
      whether no stop was between clearing the flag and its end at that start.
      `auths` counts the AUTH messages it wrote at least in part, `refused` says
      it read an AUTH_ERR with a reason, and `interrupt` is the period that the
      stop which interrupted it had ended. */
  datatype Client = Client(period: nat, clean: bool, attempt: nat, auths: nat, refused: bool,
                           interrupt: Option<nat>, pc: Pc)

  datatype Starter = Submitting(period: nat, clean: bool) | Started | AlreadyRunning | Rejected

  /** A stop that cleared the flag ended a period, and tears down. */
  datatype Stopper = Closing(period: nat) | ShuttingDown(period: nat) | TornDown(period: nat) | NotRunning

  datatype Ender = ByStop(t: Tid) | ByConnect(t: Tid)

  /** A period begins when a start sets the flag. `ended` are the periods that
      are over, with the thread that cleared the flag. */
  datatype State = State(
    running: bool,
    period: nat,
    ended: map<nat, Ender>,
    executorUp: bool,
    starters: map<Tid, Starter>,
    stoppers: map<Tid, Stopper>,
    clients: map<Tid, Client>)

  // ------------------------------------------------------------------ steps

  /** What the relay answers to AUTH; an AUTH_ERR without a reason raises an
      exception, as does an AUTH_OK without a payload. */
  datatype Reply = ReadFails | AuthOk | AuthErr(hasReason: bool) | OtherReply

  datatype Command = NewConn | Ping(answered: bool) | Unexpected | LinkFails

  datatype Step =
    | Test | Sleep | Dial(ok: bool) | SendAuth(ok: bool) | GetReply(reply: Reply)
    | Listen | GetCommand(command: Command) | Advance | GiveUp | Check | Clear

  datatype Action = CallStart | Submit(c: Tid) | CallStop | CloseSocket | ShutDown | Connect(step: Step)

  predicate TearingDown(x: Stopper) {
    x.Closing? || x.ShuttingDown?
  }

  predicate Clean(st: State) {
    forall t | t in st.stoppers :: !TearingDown(st.stoppers[t])
  }

  /** The flag is cleared. */
  function Cleared(st: State, who: Ender): State {
    if st.running then st.(running := false, ended := st.ended[st.period := who]) else st
  }

  predicate CanStep(x: Client, s: Step) {
    match s
    case Test => x.pc == CTest
    case Sleep => x.pc == CSleep
    case Dial(_) => x.pc == CDial
    case SendAuth(_) => x.pc == CAuth
    case GetReply(_) => x.pc == CReply
    case Listen => x.pc == CListen
    case GetCommand(_) => x.pc == CRead
    case Advance => x.pc == CNext
    case GiveUp => x.pc == CGiveUp
    case Check => x.pc == CFinal
    case Clear => x.pc == CClear
  }

  /** What a step makes of the thread itself, which may read the flag and use the
      executor. */
  function Stepped(running: bool, executorUp: bool, x: Client, s: Step): Client {
    match s
    case Test =>
      if x.attempt <= MAX_RECONNECT_ATTEMPTS && running then x.(pc := if x.attempt > 1 then CSleep else CDial)
      else x.(pc := CFinal)
    case Sleep => x.(pc := if x.interrupt.Some? then CEnd(Interrupted) else CDial)
    case Dial(ok) => x.(pc := if ok then CAuth else CNext)
    case SendAuth(ok) => x.(auths := x.auths + 1, pc := if ok then CReply else CNext)
    case GetReply(reply) =>
      (match reply
       case AuthOk => x.(pc := CListen)
       case AuthErr(hasReason) => if hasReason then x.(refused := true, pc := CGiveUp) else x.(pc := CNext)
       case ReadFails => x.(pc := CNext)
       case OtherReply => x.(pc := CNext))
    case Listen => x.(pc := if running then CRead else CNext)
    case GetCommand(command) =>
      (match command
       case NewConn => x.(pc := if executorUp then CListen else CNext)
       case Ping(answered) => x.(pc := if answered then CListen else CNext)
       case Unexpected => x.(pc := CListen)
       case LinkFails => x.(pc := CNext))
    case Advance => x.(attempt := x.attempt + 1, pc := CTest)
    case GiveUp => x.(pc := CEnd(Refused))
    case Check => x.(pc := if running then CClear else CEnd(Stopped))
    case Clear => x.(pc := CEnd(Exhausted))
  }

  predicate Can(st: State, t: Tid, a: Action) {
    match a
    case CallStart => t !in st.starters
    case Submit(c) => t in st.starters && st.starters[t].Submitting? && c !in st.clients
    case CallStop => t !in st.stoppers
    case CloseSocket => t in st.stoppers && st.stoppers[t].Closing?
    case ShutDown => t in st.stoppers && st.stoppers[t].ShuttingDown?
    case Connect(s) => t in st.clients && CanStep(st.clients[t], s)
  }

  /** shutdownNow interrupts every thread of the executor. */
  function Interrupt(clients: map<Tid, Client>, period: nat): map<Tid, Client> {
    map c | c in clients ::
      if clients[c].pc.CEnd? || clients[c].interrupt.Some? then clients[c]
      else clients[c].(interrupt := Some(period))
  }

  function Do(st: State, t: Tid, a: Action): State
    requires Can(st, t, a)
  {
    match a
    case CallStart =>
      if st.running then st.(starters := st.starters[t := AlreadyRunning])
      else st.(running := true, period := st.period + 1,
               starters := st.starters[t := Submitting(st.period + 1, Clean(st))])
    case Submit(c) =>
      if !st.executorUp then st.(starters := st.starters[t := Rejected])
      else
        var x := Client(st.starters[t].period, st.starters[t].clean, 1, 0, false, None, CTest);
        st.(starters := st.starters[t := Started], clients := st.clients[c := x])
    case CallStop =>
      if !st.running then st.(stoppers := st.stoppers[t := NotRunning])
      else Cleared(st, ByStop(t)).(stoppers := st.stoppers[t := Closing(st.period)])
    case CloseSocket => st.(stoppers := st.stoppers[t := ShuttingDown(st.stoppers[t].period)])
    case ShutDown =>
      var p := st.stoppers[t].period;
      st.(stoppers := st.stoppers[t := TornDown(p)], executorUp := false, clients := Interrupt(st.clients, p))
    case Connect(s) =>
      var st' := st.(clients := st.clients[t := Stepped(st.running, st.executorUp, st.clients[t], s)]);
      if s.GiveUp? || s.Clear? then Cleared(st', ByConnect(t)) else st'
  }

  /** Nothing was called yet. */
  const IDLE: State := State(false, 0, map[], true, map[], map[], map[])

  datatype Turn = Turn(t: Tid, a: Action)

  function Front(turns: seq<Turn>): seq<Turn>
    requires turns != []
  {
    turns[..|turns| - 1]
  }

  function Last(turns: seq<Turn>): Turn
    requires turns != []
  {
    turns[|turns| - 1]
  }

  predicate Takes(st: State, turn: Turn, st': State) {
    Can(st, turn.t, turn.a) && Do(st, turn.t, turn.a) == st'
  }

  /** `turns` can be taken one after the other from `from`, and lead to `st`. */
  ghost predicate Leads(from: State, turns: seq<Turn>, st: State) {
    if turns == [] then from == st
    else exists mid :: Leads(from, Front(turns), mid) && Takes(mid, Last(turns), st)
  }

  ghost predicate Reachable(st: State) {
    exists turns :: Leads(IDLE, turns, st)
  }

  // -------------------------------------------------------------- invariant

  /** Every period before the current one is over, and the current one exactly
      if the flag is clear. */
  ghost predicate PeriodsOk(st: State) {
    && (forall p: nat | p in st.ended :: 1 <= p <= st.period)
    && (forall p: nat | 1 <= p < st.period :: p in st.ended)
    && (st.running ==> st.period >= 1 && st.period !in st.ended)
    && (!st.running && st.period >= 1 ==> st.period in st.ended)
  }

  predicate StopperOk(st: State, t: Tid)
    requires t in st.stoppers
  {
    var x := st.stoppers[t];
    !x.NotRunning? ==> x.period in st.ended && st.ended[x.period] == ByStop(t)
  }

  predicate AttemptsOk(x: Client) {
    && 1 <= x.attempt <= 6 && x.auths <= 5
    && (x.pc.CTest? ==> x.auths < x.attempt)
    && (x.pc.CSleep? || x.pc.CDial? || x.pc.CAuth? ==> x.auths < x.attempt <= 5)
    && (x.pc.CReply? || x.pc.CListen? || x.pc.CRead? || x.pc.CNext? ==> x.auths <= x.attempt <= 5)
    && (x.refused <==> x.pc.CGiveUp? || x.pc == CEnd(Refused))
  }

  predicate ClientOk(st: State, x: Client) {
    && 1 <= x.period <= st.period && AttemptsOk(x)
    && (x.interrupt.Some? ==> x.interrupt.value in st.ended)
    && (x.interrupt.Some? && x.clean ==> x.period <= x.interrupt.value)
    && (x.pc == CEnd(Interrupted) ==> x.interrupt.Some?)
    && (x.pc.CEnd? && x.pc != CEnd(Interrupted) ==> x.period in st.ended)
  }

  /** A teardown that is under way ended no earlier period than that of any clean
      start. */
  ghost predicate CleanOk(st: State, period: nat) {
    forall t | t in st.stoppers && TearingDown(st.stoppers[t]) :: period <= st.stoppers[t].period
  }

  predicate StarterOk(st: State, x: Starter) {
    x.Submitting? ==> 1 <= x.period <= st.period
  }

  ghost predicate Inv(st: State) {
    && PeriodsOk(st)
    && (forall t | t in st.stoppers :: StopperOk(st, t))
    && (forall t | t in st.starters :: StarterOk(st, st.starters[t]))
    && (forall t | t in st.starters && st.starters[t].Submitting? && st.starters[t].clean ::
          CleanOk(st, st.starters[t].period))
    && (forall c | c in st.clients :: ClientOk(st, st.clients[c]))
    && (forall c | c in st.clients && st.clients[c].clean :: CleanOk(st, st.clients[c].period))
  }

  lemma StartKeepsInv(st: State, t: Tid)
    requires Inv(st) && Can(st, t, CallStart)
    ensures Inv(Do(st, t, CallStart))
  {
  }

  lemma SubmitKeepsInv(st: State, t: Tid, c: Tid)
    requires Inv(st) && Can(st, t, Submit(c))
    ensures Inv(Do(st, t, Submit(c)))
  {
    assert StarterOk(st, st.starters[t]);
  }

  lemma StopKeepsInv(st: State, t: Tid)
    requires Inv(st) && Can(st, t, CallStop)
    ensures Inv(Do(st, t, CallStop))
  {
    var st' := Do(st, t, CallStop);
    forall u | u in st'.stoppers ensures StopperOk(st', u) {
      if u != t { assert StopperOk(st, u); }
    }
    forall u | u in st'.starters && st'.starters[u].Submitting? && st'.starters[u].clean
      ensures CleanOk(st', st'.starters[u].period)
    {
      assert StarterOk(st, st.starters[u]) && CleanOk(st, st.starters[u].period);
    }
    forall c | c in st'.clients ensures ClientOk(st', st'.clients[c]) { assert ClientOk(st, st.clients[c]); }
    forall c | c in st'.clients && st'.clients[c].clean ensures CleanOk(st', st'.clients[c].period) {
      assert ClientOk(st, st.clients[c]) && CleanOk(st, st.clients[c].period);
    }
  }

  lemma TeardownKeepsInv(st: State, t: Tid, a: Action)
    requires Inv(st) && Can(st, t, a) && (a.CloseSocket? || a.ShutDown?)
    ensures Inv(Do(st, t, a))
  {
    assert StopperOk(st, t);
    var st' := Do(st, t, a);
    forall u | u in st'.stoppers ensures StopperOk(st', u) { assert StopperOk(st, u); }
    forall c | c in st'.clients ensures ClientOk(st', st'.clients[c]) {
      assert ClientOk(st, st.clients[c]);
      assert st.clients[c].clean ==> CleanOk(st, st.clients[c].period);
    }
    forall c | c in st'.clients && st'.clients[c].clean ensures CleanOk(st', st'.clients[c].period) {
      assert CleanOk(st, st.clients[c].period);
    }
  }

  lemma SteppedOk(st: State, x: Client, s: Step)
    requires PeriodsOk(st) && ClientOk(st, x) && CanStep(x, s) && !s.GiveUp? && !s.Clear?
    ensures ClientOk(st, Stepped(st.running, st.executorUp, x, s))
  {
  }

  lemma ConnectKeepsInv(st: State, t: Tid, s: Step)
    requires Inv(st) && Can(st, t, Connect(s)) && !s.GiveUp? && !s.Clear?
    ensures Inv(Do(st, t, Connect(s)))
  {
    var x := st.clients[t];
    var x' := Stepped(st.running, st.executorUp, x, s);
    assert ClientOk(st, x);
    SteppedOk(st, x, s);
    ReplaceKeepsInv(st, t, x');
  }

  lemma ReplaceKeepsInv(st: State, t: Tid, x: Client)
    requires Inv(st) && t in st.clients && ClientOk(st, x)
    requires x.clean == st.clients[t].clean && x.period == st.clients[t].period
    ensures Inv(st.(clients := st.clients[t := x]))
  {
    var st' := st.(clients := st.clients[t := x]);
    forall u | u in st'.stoppers ensures StopperOk(st', u) { assert StopperOk(st, u); }
    forall c | c in st'.clients ensures ClientOk(st', st'.clients[c]) {
      if c != t { assert ClientOk(st, st.clients[c]); }
    }
    forall c | c in st'.clients && st'.clients[c].clean ensures CleanOk(st', st'.clients[c].period) {
      assert CleanOk(st, st.clients[c].period);
    }
  }

  lemma ClearKeepsInv(st: State, t: Tid)
    requires Inv(st)
    ensures Inv(Cleared(st, ByConnect(t)))
  {
    var st' := Cleared(st, ByConnect(t));
    forall u | u in st'.stoppers ensures StopperOk(st', u) { assert StopperOk(st, u); }
    forall c | c in st'.clients ensures ClientOk(st', st'.clients[c]) { assert ClientOk(st, st.clients[c]); }
    forall c | c in st'.clients && st'.clients[c].clean ensures CleanOk(st', st'.clients[c].period) {
      assert CleanOk(st, st.clients[c].period);
    }
  }

  lemma EndKeepsInv(st: State, t: Tid, s: Step)
    requires Inv(st) && Can(st, t, Connect(s)) && (s.GiveUp? || s.Clear?)
    ensures Inv(Do(st, t, Connect(s)))
  {
    ClearKeepsInv(st, t);
    var st' := Cleared(st, ByConnect(t));
    assert ClientOk(st', st'.clients[t]);
    ReplaceKeepsInv(st', t, Stepped(st.running, st.executorUp, st.clients[t], s));
  }

  lemma StepKeepsInv(st: State, t: Tid, a: Action)
    requires Inv(st) && Can(st, t, a)
    ensures Inv(Do(st, t, a))
  {
    match a {
      case CallStart => StartKeepsInv(st, t);
      case Submit(c) => SubmitKeepsInv(st, t, c);
      case CallStop => StopKeepsInv(st, t);
      case CloseSocket => TeardownKeepsInv(st, t, a);
      case ShutDown => TeardownKeepsInv(st, t, a);
      case Connect(s) => if s.GiveUp? || s.Clear? { EndKeepsInv(st, t, s); } else { ConnectKeepsInv(st, t, s); }
    }
  }

  lemma {:induction false} RunKeepsInv(from: State, turns: seq<Turn>, st: State)
    requires Inv(from) && Leads(from, turns, st)
    ensures Inv(st)
    decreases |turns|
  {
    if turns != [] {
      var mid :| Leads(from, Front(turns), mid) && Takes(mid, Last(turns), st);
      RunKeepsInv(from, Front(turns), mid);
      StepKeepsInv(mid, Last(turns).t, Last(turns).a);
    }
  }

  lemma ReachableInv(st: State)
    requires Reachable(st)
    ensures Inv(st)
  {
    var turns :| Leads(IDLE, turns, st);
    RunKeepsInv(IDLE, turns, st);
  }

  // -------------------------------------------------- threads that send no more

  /** The thread is on its way out: it has given up, or no further attempt will get
      past the delay. */
  predicate Finishing(x: Client) {
    || x.pc.CGiveUp? || x.pc.CFinal? || x.pc.CClear? || x.pc.CEnd?
    || (x.pc.CNext? && (x.attempt >= 5 || x.interrupt.Some?))
    || (x.pc.CTest? && (x.attempt > 5 || (x.interrupt.Some? && x.attempt > 1)))
    || (x.pc.CSleep? && x.interrupt.Some?)
  }

  lemma FinishingSendsNoMore(running: bool, executorUp: bool, x: Client, s: Step)
    requires AttemptsOk(x) && Finishing(x) && CanStep(x, s)
    ensures !s.SendAuth? && Finishing(Stepped(running, executorUp, x, s))
    ensures Stepped(running, executorUp, x, s).auths == x.auths
  {
  }

  /** What an AUTH_ERR leads to. */
  lemma ErrFinishesIff(running: bool, executorUp: bool, x: Client, hasReason: bool)
    requires AttemptsOk(x) && x.pc == CReply
    ensures Finishing(Stepped(running, executorUp, x, GetReply(AuthErr(hasReason))))
            <==> hasReason || x.attempt == 5 || x.interrupt.Some?
  {
  }

  // ---------------------------------------------------------------- results

  /** A connect thread sends at most five AUTHs in its life, and none after an
      AUTH_ERR with a reason. */
  lemma AuthsAreBounded(st: State, c: Tid)
    requires Reachable(st) && c in st.clients
    ensures st.clients[c].auths <= MAX_RECONNECT_ATTEMPTS
    ensures st.clients[c].refused ==> forall ok :: !Can(st, c, Connect(SendAuth(ok)))
  {
    ReachableInv(st);
    assert ClientOk(st, st.clients[c]);
  }

  lemma Then(from: State, turns: seq<Turn>, mid: State, t: Tid, a: Action) returns (more: seq<Turn>, st: State)
    requires Leads(from, turns, mid) && Can(mid, t, a)
    ensures Leads(from, more, st) && st == Do(mid, t, a)
  {
    more, st := turns + [Turn(t, a)], Do(mid, t, a);
    assert Front(more) == turns && Last(more) == Turn(t, a);
    assert Takes(mid, Last(more), st);
  }

  lemma Move(from: State, turns: seq<Turn>, mid: State, c: Tid, s: Step, x: Client) returns (more: seq<Turn>)
    requires Leads(from, turns, mid) && c in mid.clients && CanStep(mid.clients[c], s) && !s.GiveUp? && !s.Clear?
    requires x == Stepped(mid.running, mid.executorUp, mid.clients[c], s)
    ensures Leads(from, more, mid.(clients := mid.clients[c := x]))
  {
    var st;
    more, st := Then(from, turns, mid, c, Connect(s));
  }

  /** The same from a thread that has moved before. */
  lemma MoveOn(from: State, turns: seq<Turn>, mid: State, c: Tid, x: Client, s: Step, y: Client)
    returns (more: seq<Turn>)
    requires Leads(from, turns, mid.(clients := mid.clients[c := x]))
    requires CanStep(x, s) && !s.GiveUp? && !s.Clear? && y == Stepped(mid.running, mid.executorUp, x, s)
    ensures Leads(from, more, mid.(clients := mid.clients[c := y]))
  {
    more := Move(from, turns, mid.(clients := mid.clients[c := x]), c, s, y);
    assert mid.clients[c := x][c := y] == mid.clients[c := y];
  }

  lemma ToDial(from: State, turns: seq<Turn>, mid: State, c: Tid, x: Client) returns (more: seq<Turn>)
    requires Leads(from, turns, mid.(clients := mid.clients[c := x])) && mid.running
    requires x.pc == CTest && x.attempt <= 5 && x.interrupt == None
    ensures Leads(from, more, mid.(clients := mid.clients[c := x.(pc := CDial)]))
  {
    if x.attempt > 1 {
      more := MoveOn(from, turns, mid, c, x, Test, x.(pc := CSleep));
      more := MoveOn(from, more, mid, c, x.(pc := CSleep), Sleep, x.(pc := CDial));
    } else {
      more := MoveOn(from, turns, mid, c, x, Test, x.(pc := CDial));
    }
  }

  lemma FromDial(from: State, turns: seq<Turn>, mid: State, c: Tid, x: Client) returns (more: seq<Turn>)
    requires Leads(from, turns, mid.(clients := mid.clients[c := x.(pc := CDial)]))
    ensures Leads(from, more, mid.(clients := mid.clients[c := x.(auths := x.auths + 1, pc := CReply)]))
  {
    more := MoveOn(from, turns, mid, c, x.(pc := CDial), Dial(true), x.(pc := CAuth));
    more := MoveOn(from, more, mid, c, x.(pc := CAuth), SendAuth(true), x.(auths := x.auths + 1, pc := CReply));
  }

  /** A further attempt up to its AUTH. */
  lemma Dialled(from: State, turns: seq<Turn>, mid: State, c: Tid, x: Client) returns (more: seq<Turn>)
    requires Leads(from, turns, mid.(clients := mid.clients[c := x])) && mid.running
    requires x.pc == CTest && x.attempt <= 5 && x.interrupt == None
    ensures Leads(from, more, mid.(clients := mid.clients[c := x.(auths := x.auths + 1, pc := CReply)]))
  {
    more := ToDial(from, turns, mid, c, x);
    more := FromDial(from, more, mid, c, x);
  }

  const NEW_CLIENT: Client := Client(1, true, 1, 0, false, None, CTest)

  /** The first start and its connect thread. */
  lemma Begun() returns (turns: seq<Turn>)
    ensures Leads(IDLE, turns, State(true, 1, map[], true, map[1 := Started], map[], map[5 := NEW_CLIENT]))
  {
    var st;
    turns, st := [], IDLE;
    turns, st := Then(IDLE, turns, st, 1, CallStart);
    turns, st := Then(IDLE, turns, st, 1, Submit(5));
    assert st.clients == map[5 := NEW_CLIENT] && st.starters == map[1 := Started];
  }

  /** An AUTH_ERR without a reason does not stop the thread: it sends a second
      AUTH. */
  lemma ErrWithoutReasonRetries() returns (st: State)
    ensures Reachable(st) && 5 in st.clients && st.clients[5].auths == 2 && !st.clients[5].refused
  {
    var turns := Begun();
    st := State(true, 1, map[], true, map[1 := Started], map[], map[5 := NEW_CLIENT]);
    assert st.clients == st.clients[5 := NEW_CLIENT];
    turns := Dialled(IDLE, turns, st, 5, NEW_CLIENT);
    var x := NEW_CLIENT.(auths := 1, pc := CReply);
    turns := MoveOn(IDLE, turns, st, 5, x, GetReply(AuthErr(false)), x.(pc := CNext));
    turns := MoveOn(IDLE, turns, st, 5, x.(pc := CNext), Advance, x.(attempt := 2, pc := CTest));
    turns := Dialled(IDLE, turns, st, 5, x.(attempt := 2, pc := CTest));
    st := st.(clients := st.clients[5 := x.(attempt := 2, auths := 2)]);
  }

  /** Steps a connect thread has left, a listening one apart. */
  function Left(x: Client): int {
    10 * (6 - x.attempt)
    + (match x.pc
       case CTest => 9 case CSleep => 8 case CDial => 7 case CAuth => 6 case CReply => 5
       case CListen => 4 case CRead => 4 case CNext => 3 case CGiveUp => 2 case CFinal => 2 case CClear => 1
       case CEnd(_) => 0)
  }

  /** Every step takes a connect thread closer to its end, except that it may go
      round in listenForCommands. */
  lemma ConnectMakesProgress(st: State, c: Tid, s: Step)
    requires Reachable(st) && Can(st, c, Connect(s))
    ensures c in Do(st, c, Connect(s)).clients
    ensures var x, x' := st.clients[c], Do(st, c, Connect(s)).clients[c];
            && 0 <= Left(x') <= Left(x)
            && (Left(x') == Left(x) ==> (x.pc == CListen && x'.pc == CRead) || (x.pc == CRead && x'.pc == CListen))
  {
    ReachableInv(st);
    assert ClientOk(st, st.clients[c]);
    LeftDescends(st.running, st.executorUp, st.clients[c], s);
  }

  lemma LeftDescends(running: bool, executorUp: bool, x: Client, s: Step)
    requires AttemptsOk(x) && CanStep(x, s)
    ensures var x' := Stepped(running, executorUp, x, s);
            && 0 <= Left(x') <= Left(x)
            && (Left(x') == Left(x) ==> (x.pc == CListen && x'.pc == CRead) || (x.pc == CRead && x'.pc == CListen))
  {
  }

  /** A connect thread does not end before the flag was cleared after the start
      that submitted it, provided no stop was under way at that start. */
  lemma ConnectEndsItsPeriod(st: State, c: Tid)
    requires Reachable(st) && c in st.clients && st.clients[c].pc.CEnd? && st.clients[c].clean
    ensures st.clients[c].period in st.ended
    ensures st.clients[c].period == st.period ==> !st.running
  {
    ReachableInv(st);
    assert ClientOk(st, st.clients[c]);
  }

  /** With a single winning start, as the mod uses it, the flag is clear once
      connect has ended. */
  lemma SingleStartEndsIdle(st: State, c: Tid)
    requires Reachable(st) && st.period <= 1 && c in st.clients && st.clients[c].pc.CEnd?
    ensures !st.running
  {
    ReachableInv(st);
    assert ClientOk(st, st.clients[c]);
  }

  const DONE: Client := NEW_CLIENT.(pc := CEnd(Stopped))
  const SECOND: Client := NEW_CLIENT.(period := 2, clean := false)

  /** The first start was stopped. */
  function AfterStop(stopper: Stopper): State {
    State(false, 1, map[1 := ByStop(2)], true, map[1 := Started], map[2 := stopper], map[5 := DONE])
  }

  /** ... and there was a second start. */
  function AfterSecondStart(executorUp: bool, stopper: Stopper, second: Client): State {
    State(true, 2, map[1 := ByStop(2)], executorUp, map[1 := Started, 3 := Started], map[2 := stopper],
          map[5 := DONE, 6 := second])
  }

  /** The flag is cleared by a stop, and the connect thread sees it. */
  lemma Halted() returns (turns: seq<Turn>)
    ensures Leads(IDLE, turns, AfterStop(Closing(1)))
  {
    turns := Begun();
    var st := State(true, 1, map[], true, map[1 := Started], map[], map[5 := NEW_CLIENT]);
    turns, st := Then(IDLE, turns, st, 2, CallStop);
    turns := Move(IDLE, turns, st, 5, Test, NEW_CLIENT.(pc := CFinal));
    turns := MoveOn(IDLE, turns, st, 5, NEW_CLIENT.(pc := CFinal), Check, DONE);
    st := st.(clients := st.clients[5 := DONE]);
    assert st.clients == map[5 := DONE];
    assert st == AfterStop(Closing(1));
  }

  /** A second start gets in before the executor is shut down. */
  lemma StartedAgain() returns (turns: seq<Turn>)
    ensures Leads(IDLE, turns, AfterSecondStart(true, Closing(1), SECOND))
  {
    turns := Halted();
    var st := AfterStop(Closing(1));
    assert TearingDown(st.stoppers[2]);
    turns, st := Then(IDLE, turns, st, 3, CallStart);
    assert st.starters == map[1 := Started, 3 := Submitting(2, false)];
    turns, st := Then(IDLE, turns, st, 3, Submit(6));
    assert st == AfterSecondStart(true, Closing(1), SECOND);
  }

  lemma ShutDownAfterwards() returns (turns: seq<Turn>)
    ensures Leads(IDLE, turns, AfterSecondStart(false, TornDown(1), SECOND.(interrupt := Some(1))))
  {
    turns := StartedAgain();
    var st := AfterSecondStart(true, Closing(1), SECOND);
    turns := TornDownBy(IDLE, turns, st, 2, 1);
    assert Interrupt(st.clients, 1) == map[5 := DONE, 6 := SECOND.(interrupt := Some(1))];
    assert st.stoppers[2 := TornDown(1)] == map[2 := TornDown(1)];
  }

  /** The rest of a stop. */
  lemma TornDownBy(from: State, turns: seq<Turn>, mid: State, t: Tid, p: nat) returns (more: seq<Turn>)
    requires Leads(from, turns, mid) && t in mid.stoppers && mid.stoppers[t] == Closing(p)
    ensures Leads(from, more, mid.(stoppers := mid.stoppers[t := TornDown(p)], executorUp := false,
                               clients := Interrupt(mid.clients, p)))
  {
    var st;
    more, st := Then(from, turns, mid, t, CloseSocket);
    more, st := Then(from, more, st, t, ShutDown);
    assert st.stoppers == mid.stoppers[t := TornDown(p)];
  }

  /** A start in the middle of a stop can end with the flag set, no connect thread
      left, and an executor that rejects every further one. */
  lemma StartDuringStopSticks() returns (st: State)
    ensures Reachable(st) && st.running && !st.executorUp
    ensures forall c | c in st.clients :: st.clients[c].pc.CEnd?
    ensures forall t | t in st.starters :: st.starters[t].Started?
    ensures forall t | t in st.stoppers :: st.stoppers[t].TornDown?
  {
    var turns := ShutDownAfterwards();
    st := AfterSecondStart(false, TornDown(1), SECOND.(interrupt := Some(1)));
    turns, st := InterruptedAfter(IDLE, turns, st, 6);
  }

  /** The first attempt fails, and the delay before the second is interrupted. */
  lemma InterruptedAfter(from: State, turns: seq<Turn>, mid: State, c: Tid) returns (more: seq<Turn>, st: State)
    requires Leads(from, turns, mid) && mid.running && c in mid.clients
    requires mid.clients[c].pc == CTest && mid.clients[c].attempt == 1 && mid.clients[c].interrupt.Some?
    ensures Leads(from, more, st)
    ensures st == mid.(clients := mid.clients[c := mid.clients[c].(attempt := 2, pc := CEnd(Interrupted))])
  {
    var x := mid.clients[c];
    more := Move(from, turns, mid, c, Test, x.(pc := CDial));
    more := MoveOn(from, more, mid, c, x.(pc := CDial), Dial(false), x.(pc := CNext));
    var y := x.(attempt := 2, pc := CTest);
    more := MoveOn(from, more, mid, c, x.(pc := CNext), Advance, y);
    more := MoveOn(from, more, mid, c, y, Test, y.(pc := CSleep));
    more := MoveOn(from, more, mid, c, y.(pc := CSleep), Sleep, y.(pc := CEnd(Interrupted)));
    st := mid.(clients := mid.clients[c := y.(pc := CEnd(Interrupted))]);
  }

  /** The teardown of a period. */
  predicate Won(st: State, t: Tid, p: nat) {
    t in st.stoppers && !st.stoppers[t].NotRunning? && st.stoppers[t].period == p
  }

  /** At most one stop tears down in a period, none does if connect itself ended
      it, and none does while the period lasts. */
  lemma OneTeardownAPeriod(st: State, t: Tid, u: Tid, p: nat)
    requires Reachable(st) && Won(st, t, p)
    ensures Won(st, u, p) ==> u == t
    ensures p in st.ended && st.ended[p] == ByStop(t)
    ensures st.running ==> p < st.period
  {
    ReachableInv(st);
    assert StopperOk(st, t);
    if Won(st, u, p) { assert StopperOk(st, u); }
  }
}
