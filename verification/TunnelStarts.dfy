/** What a start does to the running flag of the tunnel client when it is called
    during or after a stop. */
module TunnelStarts {
  import opened Wrappers
  import opened TunnelRuns

  /** The flag is set, but no connect thread of its period is left and none is
      about to be submitted. */
  ghost predicate Orphaned(st: State, period: nat) {
    && st.running && st.period == period
    && (forall t | t in st.starters && st.starters[t].Submitting? :: st.starters[t].period != period)
    && (forall c | c in st.clients && st.clients[c].period == period :: st.clients[c].pc.CEnd?)
  }

  predicate NoneLive(st: State) {
    forall c | c in st.clients :: st.clients[c].pc.CEnd?
  }

  /** The start `t` may be followed by steps that leave the flag it set orphaned. */
  ghost predicate CanStick(st: State, t: Tid)
    requires t !in st.starters
  {
    exists turns, st' :: Sticks(st, t, turns, st')
  }

  ghost predicate Sticks(st: State, t: Tid, turns: seq<Turn>, st': State)
    requires t !in st.starters
  {
    Leads(Do(st, t, CallStart), turns, st') && Orphaned(st', st.period + 1)
  }

  // --------------------------------------- a start that nothing can interrupt

  /** While the flag stays set for `period`, no stop is under way, the executor
      works, and the start `t` or a thread it submitted is there. */
  ghost predicate Supplied(st: State, t: Tid, period: nat) {
    && period <= st.period
    && (st.running && st.period == period ==>
          Clean(st) && st.executorUp
          && ((t in st.starters && st.starters[t] == Submitting(period, true)) || HasThread(st, period)))
  }

  ghost predicate HasThread(st: State, period: nat) {
    exists c :: c in st.clients && st.clients[c].period == period && st.clients[c].clean
  }

  lemma SubmitStaysSupplied(st: State, t: Tid, period: nat, u: Tid, c: Tid)
    requires Supplied(st, t, period) && Can(st, u, Submit(c))
    ensures Supplied(Do(st, u, Submit(c)), t, period)
  {
    var st' := Do(st, u, Submit(c));
    if HasThread(st, period) {
      var d :| d in st.clients && st.clients[d].period == period && st.clients[d].clean;
      assert d in st'.clients && st'.clients[d] == st.clients[d];
    } else if st.executorUp && u == t {
      assert c in st'.clients;
    }
  }

  lemma ConnectStaysSupplied(st: State, t: Tid, period: nat, c: Tid, s: Step)
    requires Supplied(st, t, period) && Can(st, c, Connect(s))
    ensures Supplied(Do(st, c, Connect(s)), t, period)
  {
    var st' := Do(st, c, Connect(s));
    if HasThread(st, period) {
      var d :| d in st.clients && st.clients[d].period == period && st.clients[d].clean;
      assert d in st'.clients && st'.clients[d].period == period && st'.clients[d].clean;
    }
  }

  lemma StepStaysSupplied(st: State, t: Tid, period: nat, u: Tid, a: Action)
    requires Supplied(st, t, period) && Can(st, u, a)
    ensures Supplied(Do(st, u, a), t, period)
  {
    match a {
      case CallStart =>
      case Submit(c) => SubmitStaysSupplied(st, t, period, u, c);
      case CallStop =>
      case CloseSocket => assert TearingDown(st.stoppers[u]);
      case ShutDown => assert TearingDown(st.stoppers[u]);
      case Connect(s) => ConnectStaysSupplied(st, t, period, u, s);
    }
  }

  lemma {:induction false} RunStaysSupplied(from: State, turns: seq<Turn>, st: State, t: Tid, period: nat)
    requires Supplied(from, t, period) && Leads(from, turns, st)
    ensures Supplied(st, t, period)
    decreases |turns|
  {
    if turns != [] {
      var mid :| Leads(from, Front(turns), mid) && Takes(mid, Last(turns), st);
      RunStaysSupplied(from, Front(turns), mid, t, period);
      StepStaysSupplied(mid, t, period, Last(turns).t, Last(turns).a);
    }
  }

  lemma SuppliedIsNotOrphaned(st: State, t: Tid, period: nat)
    requires Inv(st) && Supplied(st, t, period)
    ensures !Orphaned(st, period)
  {
    if HasThread(st, period) {
      var c :| c in st.clients && st.clients[c].period == period && st.clients[c].clean;
      CleanThreadIsLive(st, c);
    }
  }

  /** A connect thread of a clean start does not end while the flag stays set. */
  lemma CleanThreadIsLive(st: State, c: Tid)
    requires Inv(st) && c in st.clients && st.clients[c].clean
    ensures st.running && st.period == st.clients[c].period ==> !st.clients[c].pc.CEnd?
  {
    assert ClientOk(st, st.clients[c]);
  }

  lemma SafeStartNeverSticks(st: State, t: Tid, turns: seq<Turn>, st': State)
    requires Inv(st) && !st.running && t !in st.starters && Clean(st) && st.executorUp
    ensures !Sticks(st, t, turns, st')
  {
    if Leads(Do(st, t, CallStart), turns, st') {
      StepKeepsInv(st, t, CallStart);
      RunKeepsInv(Do(st, t, CallStart), turns, st');
      RunStaysSupplied(Do(st, t, CallStart), turns, st', t, st.period + 1);
      SuppliedIsNotOrphaned(st', t, st.period + 1);
    }
  }

  // ----------------------------------------------- a start that comes to nothing

  lemma {:induction false} Above(xs: set<Tid>) returns (x: Tid)
    ensures forall y | y in xs :: y < x
  {
    x := 0;
    if xs != {} {
      var y := AnyOf(xs);
      var z := Above(xs - {y});
      x := if y < z then z else y + 1;
      forall v | v in xs ensures v < x { assert v == y || v in xs - {y}; }
    }
  }

  /** Nobody has used the next period yet. */
  lemma NextPeriodIsNew(st: State)
    requires Inv(st)
    ensures forall t | t in st.starters && st.starters[t].Submitting? :: st.starters[t].period <= st.period
    ensures forall c | c in st.clients :: st.clients[c].period <= st.period
  {
    forall t | t in st.starters && st.starters[t].Submitting? ensures st.starters[t].period <= st.period {
      assert StarterOk(st, st.starters[t]);
    }
    forall c | c in st.clients ensures st.clients[c].period <= st.period { assert ClientOk(st, st.clients[c]); }
  }

  /** With the executor down, the thread is rejected. */
  lemma RejectedStartSticks(st: State, t: Tid) returns (turns: seq<Turn>, st': State)
    requires Inv(st) && !st.running && t !in st.starters && !st.executorUp
    ensures Sticks(st, t, turns, st') && st'.clients == st.clients
    ensures t in st'.starters && st'.starters[t] == Rejected
  {
    var from := Do(st, t, CallStart);
    var c := Above(st.clients.Keys);
    NextPeriodIsNew(st);
    turns, st' := Then(from, [], from, t, Submit(c));
  }

  /** During a stop, the thread is submitted, interrupted by the stop, and ends
      without a look at the flag. */
  lemma InterruptedStartSticks(st: State, t: Tid, u: Tid) returns (turns: seq<Turn>, st': State)
    requires Inv(st) && !st.running && t !in st.starters && st.executorUp
    requires u in st.stoppers && TearingDown(st.stoppers[u])
    ensures Sticks(st, t, turns, st') && (NoneLive(st) ==> NoneLive(st'))
    ensures t in st'.starters && st'.starters[t] == Started
  {
    var from := Do(st, t, CallStart);
    var c := Above(st.clients.Keys);
    NextPeriodIsNew(st);
    turns, st' := Then(from, [], from, t, Submit(c));
    var mid := st';
    turns, st' := RestOfStop(from, turns, st', u);
    turns, st' := InterruptedAfter(from, turns, st', c);
    assert st'.starters == mid.starters && st'.running && st'.period == st.period + 1;
    forall d | d in st'.clients && d != c ensures d in st.clients && st'.clients[d].period == st.clients[d].period
                                                  && (st.clients[d].pc.CEnd? ==> st'.clients[d].pc.CEnd?)
    {
    }
  }

  lemma RestOfStop(from: State, turns: seq<Turn>, mid: State, u: Tid) returns (more: seq<Turn>, st: State)
    requires Leads(from, turns, mid) && u in mid.stoppers && TearingDown(mid.stoppers[u])
    ensures Leads(from, more, st)
    ensures st == mid.(stoppers := mid.stoppers[u := TornDown(mid.stoppers[u].period)], executorUp := false,
                       clients := Interrupt(mid.clients, mid.stoppers[u].period))
  {
    var p := mid.stoppers[u].period;
    if mid.stoppers[u].Closing? {
      more := TornDownBy(from, turns, mid, u, p);
      st := mid.(stoppers := mid.stoppers[u := TornDown(p)], executorUp := false, clients := Interrupt(mid.clients, p));
    } else {
      more, st := Then(from, turns, mid, u, ShutDown);
    }
  }

  // ----------------------------------------------------------------- results

  /** When connect can end, or never begin, with the flag still set: a start that
      finds the flag clear can leave it set without a connect thread if and only
      if a stop is under way at that moment or one has shut the executor down. */
  lemma StartSticksIff(st: State, t: Tid)
    requires Reachable(st) && !st.running && t !in st.starters
    ensures CanStick(st, t) <==> !Clean(st) || !st.executorUp
  {
    ReachableInv(st);
    if !st.executorUp {
      var turns, st' := RejectedStartSticks(st, t);
    } else if !Clean(st) {
      var u :| u in st.stoppers && TearingDown(st.stoppers[u]);
      var turns, st' := InterruptedStartSticks(st, t, u);
    } else if CanStick(st, t) {
      var turns, st' :| Sticks(st, t, turns, st');
      SafeStartNeverSticks(st, t, turns, st');
    }
  }

  /** If no connect thread was live, then none is live afterwards either: the thread
      was submitted and is over, or rejected because the executor was down. */
  lemma StartSticksAlone(st: State, t: Tid) returns (turns: seq<Turn>, st': State)
    requires Reachable(st) && !st.running && t !in st.starters && NoneLive(st) && (!Clean(st) || !st.executorUp)
    ensures Sticks(st, t, turns, st') && NoneLive(st')
    ensures t in st'.starters && st'.starters[t] == if st.executorUp then Started else Rejected
  {
    ReachableInv(st);
    if !st.executorUp {
      turns, st' := RejectedStartSticks(st, t);
    } else {
      var u :| u in st.stoppers && TearingDown(st.stoppers[u]);
      turns, st' := InterruptedStartSticks(st, t, u);
    }
  }

  // ------------------------------------------- one connect thread a period

  /** `t` is a start of `period` that has yet to submit its thread. */
  predicate SubmitsIn(st: State, t: Tid, period: int) {
    t in st.starters && st.starters[t].Submitting? && st.starters[t].period == period
  }

  /** `c` is a connect thread of `period`. */
  predicate ConnectsIn(st: State, c: Tid, period: int) {
    c in st.clients && st.clients[c].period == period
  }

  /** A period belongs to one start, and then to the one thread it submitted. */
  ghost predicate OneEach(st: State) {
    && (forall t, u, p | SubmitsIn(st, t, p) && SubmitsIn(st, u, p) :: t == u)
    && (forall c, d, p | ConnectsIn(st, c, p) && ConnectsIn(st, d, p) :: c == d)
    && (forall t, c, p | SubmitsIn(st, t, p) :: !ConnectsIn(st, c, p))
  }

  lemma StartStaysOneEach(st: State, t: Tid)
    requires Inv(st) && OneEach(st) && Can(st, t, CallStart)
    ensures OneEach(Do(st, t, CallStart))
  {
    var st' := Do(st, t, CallStart);
    NextPeriodIsNew(st);
    forall u, p | SubmitsIn(st', u, p) ensures SubmitsIn(st, u, p) || (u == t && p == st.period + 1) {
    }
    forall c, p | ConnectsIn(st', c, p) ensures ConnectsIn(st, c, p) && p <= st.period {
    }
  }

  lemma SubmitStaysOneEach(st: State, t: Tid, c: Tid)
    requires OneEach(st) && Can(st, t, Submit(c))
    ensures OneEach(Do(st, t, Submit(c)))
  {
    var st' := Do(st, t, Submit(c));
    assert SubmitsIn(st, t, st.starters[t].period);
    forall u, p | SubmitsIn(st', u, p) ensures SubmitsIn(st, u, p) && u != t {
    }
    forall d, p | ConnectsIn(st', d, p) ensures ConnectsIn(st, d, p) || (d == c && p == st.starters[t].period) {
    }
  }

  lemma StopStaysOneEach(st: State, t: Tid, a: Action)
    requires OneEach(st) && Can(st, t, a) && (a.CallStop? || a.CloseSocket? || a.ShutDown?)
    ensures OneEach(Do(st, t, a))
  {
    var st' := Do(st, t, a);
    forall u, p | SubmitsIn(st', u, p) ensures SubmitsIn(st, u, p) {
    }
    forall d, p | ConnectsIn(st', d, p) ensures ConnectsIn(st, d, p) {
    }
  }

  lemma ConnectStaysOneEach(st: State, t: Tid, s: Step)
    requires OneEach(st) && Can(st, t, Connect(s))
    ensures OneEach(Do(st, t, Connect(s)))
  {
    var st' := Do(st, t, Connect(s));
    forall u, p | SubmitsIn(st', u, p) ensures SubmitsIn(st, u, p) {
    }
    forall d, p | ConnectsIn(st', d, p) ensures ConnectsIn(st, d, p) {
    }
  }

  lemma {:induction false} RunStaysOneEach(from: State, turns: seq<Turn>, st: State)
    requires Inv(from) && OneEach(from) && Leads(from, turns, st)
    ensures OneEach(st)
    decreases |turns|
  {
    if turns != [] {
      var mid :| Leads(from, Front(turns), mid) && Takes(mid, Last(turns), st);
      RunKeepsInv(from, Front(turns), mid);
      RunStaysOneEach(from, Front(turns), mid);
      var t := Last(turns);
      if t.a.CallStart? { StartStaysOneEach(mid, t.t); }
      else if t.a.Submit? { SubmitStaysOneEach(mid, t.t, t.a.c); }
      else if t.a.Connect? { ConnectStaysOneEach(mid, t.t, t.a.step); }
      else { StopStaysOneEach(mid, t.t, t.a); }
    }
  }

  /** However many starts there are, a period has at most one connect thread, and
      while a start has yet to submit it, none: a start that finds the tunnel running
      adds nothing. */
  lemma OneThreadAPeriod(st: State, c: Tid, d: Tid, t: Tid)
    requires Reachable(st) && c in st.clients
    ensures d in st.clients && st.clients[d].period == st.clients[c].period ==> d == c
    ensures t in st.starters && st.starters[t].Submitting? ==> st.starters[t].period != st.clients[c].period
  {
    var turns :| Leads(IDLE, turns, st);
    RunStaysOneEach(IDLE, turns, st);
    assert ConnectsIn(st, c, st.clients[c].period);
    if t in st.starters && st.starters[t].Submitting? { assert SubmitsIn(st, t, st.starters[t].period); }
    if d in st.clients { assert ConnectsIn(st, d, st.clients[d].period); }
  }
}
