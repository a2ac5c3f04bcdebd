/** Whether the tunnel client sends an AUTH after an AUTH_ERR. */
module TunnelAuths {
  import opened Wrappers
  import opened TunnelRuns
  import TunnelStarts

  // ------------------------------------------------- threads that send no more

  /** Thread `c` is on its way out, with `auths` AUTHs sent. */
  predicate Settled(st: State, c: Tid, auths: nat) {
    c in st.clients && Finishing(st.clients[c]) && st.clients[c].auths == auths
  }

  lemma StepStaysSettled(st: State, t: Tid, a: Action, c: Tid, auths: nat)
    requires Inv(st) && Can(st, t, a) && Settled(st, c, auths)
    ensures Settled(Do(st, t, a), c, auths)
  {
    assert ClientOk(st, st.clients[c]);
    if a.Connect? && t == c {
      FinishingSendsNoMore(st.running, st.executorUp, st.clients[c], a.step);
    }
  }

  lemma {:induction false} RunStaysSettled(from: State, turns: seq<Turn>, st: State, c: Tid, auths: nat)
    requires Inv(from) && Settled(from, c, auths) && Leads(from, turns, st)
    ensures Settled(st, c, auths)
    decreases |turns|
  {
    if turns != [] {
      var mid :| Leads(from, Front(turns), mid) && Takes(mid, Last(turns), st);
      RunKeepsInv(from, Front(turns), mid);
      RunStaysSettled(from, Front(turns), mid, c, auths);
      StepStaysSettled(mid, Last(turns).t, Last(turns).a, c, auths);
    }
  }

  // --------------------------------------------------- threads that try again

  /** With the flag set, a thread that has attempts left and is not interrupted can
      go on to its next AUTH. */
  lemma NextAuth(from: State, turns: seq<Turn>, mid: State, c: Tid) returns (more: seq<Turn>, st: State)
    requires Leads(from, turns, mid) && mid.running && c in mid.clients
    requires mid.clients[c].pc == CNext && mid.clients[c].attempt < 5 && mid.clients[c].interrupt == None
    ensures Leads(from, more, st) && c in st.clients && st.clients[c].auths == mid.clients[c].auths + 1
  {
    var x := mid.clients[c];
    var y := x.(attempt := x.attempt + 1, pc := CTest);
    more := Move(from, turns, mid, c, Advance, y);
    more := Dialled(from, more, mid, c, y);
    st := mid.(clients := mid.clients[c := y.(auths := y.auths + 1, pc := CReply)]);
  }

  /** The flag can always be set. */
  lemma FlagSet(st: State) returns (turns: seq<Turn>, st': State)
    ensures Leads(st, turns, st') && st'.running && st'.clients == st.clients
  {
    turns, st' := [], st;
    if !st.running {
      var t := TunnelStarts.Above(st.starters.Keys);
      turns, st' := Then(st, [], st, t, CallStart);
    }
  }

  // ---------------------------------------------------------------- the result

  ghost predicate SendsAgain(st: State, c: Tid, auths: nat, turns: seq<Turn>, st': State) {
    Leads(st, turns, st') && c in st'.clients && st'.clients[c].auths > auths
  }

  /** Some run from `st` raises the number of AUTHs of `c` above `auths`. */
  ghost predicate CanSendAgain(st: State, c: Tid, auths: nat) {
    exists turns, st' :: SendsAgain(st, c, auths, turns, st')
  }

  lemma FinishingIsFinal(st: State, c: Tid)
    requires Inv(st) && c in st.clients && Finishing(st.clients[c])
    ensures !CanSendAgain(st, c, st.clients[c].auths)
  {
    forall turns, st' | Leads(st, turns, st') ensures !SendsAgain(st, c, st.clients[c].auths, turns, st') {
      RunStaysSettled(st, turns, st', c, st.clients[c].auths);
    }
  }

  lemma NextCanSend(st: State, c: Tid)
    requires c in st.clients && st.clients[c].pc == CNext
    requires st.clients[c].attempt < 5 && st.clients[c].interrupt == None
    ensures CanSendAgain(st, c, st.clients[c].auths)
  {
    var turns, end := FlagSet(st);
    turns, end := NextAuth(st, turns, end, c);
    assert SendsAgain(st, c, st.clients[c].auths, turns, end);
  }

  /** What the thread is after an AUTH_ERR. */
  lemma AfterErr(st: State, c: Tid, hasReason: bool) returns (st': State)
    requires Inv(st) && c in st.clients && st.clients[c].pc == CReply
    ensures Can(st, c, Connect(GetReply(AuthErr(hasReason)))) && st' == Do(st, c, Connect(GetReply(AuthErr(hasReason))))
    ensures Inv(st') && c in st'.clients
    ensures st'.clients[c] == st.clients[c].(refused := hasReason, pc := if hasReason then CGiveUp else CNext)
  {
    assert ClientOk(st, st.clients[c]);
    st' := Do(st, c, Connect(GetReply(AuthErr(hasReason))));
    StepKeepsInv(st, c, Connect(GetReply(AuthErr(hasReason))));
  }

  /** After an AUTH_ERR a connect thread can send another AUTH if and only if the
      AUTH_ERR had no reason, it was not the fifth attempt, and the thread was not
      interrupted. */
  lemma AuthAfterErrIff(st: State, c: Tid, hasReason: bool)
    requires Reachable(st) && c in st.clients && st.clients[c].pc == CReply
    ensures CanSendAgain(Do(st, c, Connect(GetReply(AuthErr(hasReason)))), c, st.clients[c].auths)
            <==> !hasReason && st.clients[c].attempt < 5 && st.clients[c].interrupt == None
  {
    ReachableInv(st);
    assert ClientOk(st, st.clients[c]);
    var st' := AfterErr(st, c, hasReason);
    if hasReason || st.clients[c].attempt == 5 || st.clients[c].interrupt.Some? {
      FinishingIsFinal(st', c);
    } else {
      NextCanSend(st', c);
    }
  }
}
