/** What the tunnel client does with an AUTH_OK: it reads commands. */
module TunnelListens {
  import opened Wrappers
  import opened TunnelRuns

  /** The command leaves listenForCommands at work. */
  predicate Handled(command: Command, executorUp: bool) {
    (command == NewConn && executorUp) || command == Ping(true) || command == Unexpected
  }

  predicate AllHandled(commands: seq<Command>, executorUp: bool) {
    forall i | 0 <= i < |commands| :: Handled(commands[i], executorUp)
  }

  /** Thread `c` reads the commands, one after the other. */
  function Rounds(c: Tid, commands: seq<Command>): seq<Turn> {
    if commands == [] then [] else
    var n := |commands| - 1;
    Rounds(c, commands[..n]) + [Turn(c, Connect(Listen))] + [Turn(c, Connect(GetCommand(commands[n])))]
  }

  lemma OneMore(from: State, turns: seq<Turn>, mid: State, t: Tid, a: Action, st: State)
    requires Leads(from, turns, mid) && Can(mid, t, a) && st == Do(mid, t, a)
    ensures Leads(from, turns + [Turn(t, a)], st)
  {
    var more := turns + [Turn(t, a)];
    assert Front(more) == turns && Last(more) == Turn(t, a);
    assert Takes(mid, Last(more), st);
  }

  predicate AtListen(st: State, c: Tid) {
    c in st.clients && st.clients[c].pc == CListen && st.running
  }

  /** The state after `c` has read the flag. */
  function Reading(st: State, c: Tid): State
    requires c in st.clients
  {
    st.(clients := st.clients[c := st.clients[c].(pc := CRead)])
  }

  lemma Round(st: State, c: Tid, command: Command)
    requires AtListen(st, c) && Handled(command, st.executorUp)
    ensures Can(st, c, Connect(Listen)) && Do(st, c, Connect(Listen)) == Reading(st, c)
    ensures Can(Reading(st, c), c, Connect(GetCommand(command)))
    ensures Do(Reading(st, c), c, Connect(GetCommand(command))) == st
  {
    var x := st.clients[c];
    assert st.clients[c := x.(pc := CRead)][c := x] == st.clients;
  }

  lemma {:induction false} RoundsLead(st: State, c: Tid, commands: seq<Command>)
    requires AtListen(st, c) && AllHandled(commands, st.executorUp)
    ensures Leads(st, Rounds(c, commands), st)
  {
    if commands != [] {
      var n := |commands| - 1;
      RoundsLead(st, c, commands[..n]);
      Round(st, c, commands[n]);
      var turns := Rounds(c, commands[..n]);
      OneMore(st, turns, st, c, Connect(Listen), Reading(st, c));
      OneMore(st, turns + [Turn(c, Connect(Listen))], Reading(st, c), c, Connect(GetCommand(commands[n])), st);
    }
  }

  /** No AUTH is sent. */
  predicate Silent(turns: seq<Turn>) {
    forall i | 0 <= i < |turns| && turns[i].a.Connect? :: !turns[i].a.step.SendAuth?
  }

  lemma {:induction false} RoundsAreSilent(c: Tid, commands: seq<Command>)
    ensures Silent(Rounds(c, commands)) && |Rounds(c, commands)| == 2 * |commands|
  {
    if commands != [] { RoundsAreSilent(c, commands[..|commands| - 1]); }
  }

  lemma OkListens(st: State, c: Tid) returns (st': State)
    requires c in st.clients && st.clients[c].pc == CReply && st.running
    ensures Can(st, c, Connect(GetReply(AuthOk))) && st' == Do(st, c, Connect(GetReply(AuthOk)))
    ensures AtListen(st', c) && st'.executorUp == st.executorUp && st'.clients[c].auths == st.clients[c].auths
  {
    st' := Do(st, c, Connect(GetReply(AuthOk)));
  }

  /** From every state in which a connect thread reads an AUTH_OK with the flag set,
      it can read any commands, one after the other, and then any further one, without
      another AUTH. A NEW_CONN is among the commands it goes on after as long as the
      executor is up. */
  lemma CommandsAreReadAfterOk(st: State, c: Tid, commands: seq<Command>, last: Command)
    returns (turns: seq<Turn>, end: State)
    requires c in st.clients && st.clients[c].pc == CReply && st.running
    requires AllHandled(commands, st.executorUp)
    ensures Leads(Do(st, c, Connect(GetReply(AuthOk))), turns, end) && Silent(turns)
    ensures turns == Rounds(c, commands) + [Turn(c, Connect(Listen))]
    ensures Can(end, c, Connect(GetCommand(last))) && end.clients[c].auths == st.clients[c].auths
  {
    var mid := OkListens(st, c);
    RoundsLead(mid, c, commands);
    RoundsAreSilent(c, commands);
    end := Reading(mid, c);
    OneMore(mid, Rounds(c, commands), mid, c, Connect(Listen), end);
    turns := Rounds(c, commands) + [Turn(c, Connect(Listen))];
  }
}
