/** A data connection delivered after its player timed out: how it happens, and
    that it stays open in the channel for ever. */
module Stranding {
  import opened Wrappers
  import opened Rendezvous
  import opened RendezvousInvariant
  import opened RendezvousSteps
  import opened RendezvousProperties

  /** What a step of another thread leaves of player `p`. */
  predicate LeavesAlone(st: State, p: Tid, st': State) {
    p in st.threads && p in st'.threads && st'.threads[p] == st.threads[p]
    && (p in st.chans ==> p in st'.chans && st.chans[p].sends <= st'.chans[p].sends)
  }

  lemma OtherRoutes(st: State, t: Tid, a: RouteStep, p: Tid)
    requires CanRoute(st, t, a) && p in st.threads && t != p
    ensures LeavesAlone(st, p, DoRoute(st, t, a))
  {
  }

  lemma OtherRegisters(st: State, t: Tid, a: RegisterStep, p: Tid)
    requires CanRegister(st, t, a) && p in st.threads && t != p
    ensures LeavesAlone(st, p, DoRegister(st, t, a))
  {
  }

  lemma OtherSelects(st: State, t: Tid, a: SelectStep, p: Tid)
    requires CanSelect(st, t, a) && p in st.threads && t != p
    ensures LeavesAlone(st, p, DoSelect(st, t, a))
  {
  }

  lemma OtherScans(st: State, t: Tid, a: ScanStep, p: Tid)
    requires CanScan(st, t, a) && p in st.threads && t != p
    ensures LeavesAlone(st, p, DoScan(st, t, a))
  {
  }

  lemma OtherLooks(st: State, t: Tid, a: LookStep, p: Tid)
    requires CanLook(st, t, a) && p in st.threads && t != p
    ensures LeavesAlone(st, p, DoLook(st, t, a))
  {
  }

  lemma OtherResolves(st: State, t: Tid, a: ResolveStep, p: Tid)
    requires CanResolve(st, t, a) && p in st.threads && t != p
    ensures LeavesAlone(st, p, DoResolve(st, t, a))
  {
  }

  lemma OtherManages(st: State, t: Tid, a: ManageStep, p: Tid)
    requires CanManage(st, t, a) && p in st.threads && t != p
    ensures LeavesAlone(st, p, DoManage(st, t, a))
  {
  }

  lemma OtherCloses(st: State, t: Tid, a: CloseStep, p: Tid)
    requires CanClose(st, t, a) && p in st.threads && t != p
    ensures LeavesAlone(st, p, DoClose(st, t, a))
  {
  }

  lemma OtherSamples(st: State, t: Tid, a: SampleStep, p: Tid)
    requires CanSample(st, t, a) && p in st.threads && t != p
    ensures LeavesAlone(st, p, DoSample(st, t, a))
  {
  }

  lemma OtherBridges(st: State, t: Tid, a: BridgeStep, p: Tid)
    requires CanBridge(st, t, a) && p in st.threads && t != p
    ensures LeavesAlone(st, p, DoBridge(st, t, a))
  {
  }

  lemma OthersLeaveAlone(st: State, t: Tid, a: Action, p: Tid)
    requires Can(st, t, a) && p in st.threads && t != p
    ensures LeavesAlone(st, p, Do(st, t, a))
  {
    match a {
      case Spawn(_) =>
      case Route(x) => OtherRoutes(st, t, x, p);
      case Register(x) => OtherRegisters(st, t, x, p);
      case Select(x) => OtherSelects(st, t, x, p);
      case Bridge(x) => OtherBridges(st, t, x, p);
      case Scan(x) => OtherScans(st, t, x, p);
      case LookUp(x) => OtherLooks(st, t, x, p);
      case Resolve(x) => OtherResolves(st, t, x, p);
      case Manage(x) => OtherManages(st, t, x, p);
      case Close(x) => OtherCloses(st, t, x, p);
      case Stat(x) => OtherSamples(st, t, x, p);
    }
  }

  /** `d` is in the channel of `p`, and `p` is past its select. */
  predicate Stranded(st: State, d: Tid, p: Tid) {
    IsData(st, d) && At(st, d, Buffered(p)) && !st.threads[p].pc.PWait?
  }

  /** What the player does on its own leads nowhere near the channel. */
  lemma OwnStepStaysLate(st: State, p: Tid, a: Action)
    requires Inv(st) && p in st.threads && p in st.chans && Can(st, p, a)
    requires TimedOutTooLate(st.threads[p].pc) && !InMap(st, p)
    ensures var st' := Do(st, p, a);
            p in st'.threads && TimedOutTooLate(st'.threads[p].pc) && st'.chans == st.chans
  {
    OwnShare(st, p);
    LateSteps(st, p, a);
  }

  lemma LateSteps(st: State, p: Tid, a: Action)
    requires IsPlayer(st, p) && TimedOutTooLate(st.threads[p].pc) && Can(st, p, a)
    ensures || (a == Select(LockToDelete) && st.threads[p].pc.PExpire?)
            || (a == Select(Delete) && st.threads[p].pc.PDelete?)
  {
  }

  lemma StaysStranded(st: State, t: Tid, a: Action, d: Tid, p: Tid)
    requires Inv(st) && Can(st, t, a) && Stranded(st, d, p)
    ensures Stranded(Do(st, t, a), d, p)
  {
    BufferedUnread(st, p);
    if t == p { OwnStepStaysLate(st, p, a); } else { OthersLeaveAlone(st, t, a, p); }
    if t != d { OthersLeaveAlone(st, t, a, d); }
    StepKeepsInv(st, t, a);
    assert ChanOk(st, p) && ChanOk(Do(st, t, a), p);
    StillThere(st, Do(st, t, a), d, p);
  }

  lemma StillThere(st: State, st': State, d: Tid, p: Tid)
    requires ChanOk(st, p) && ChanOk(st', p) && Stranded(st, d, p)
    requires TimedOutTooLate(st'.threads[p].pc) && st.chans[p].sends <= st'.chans[p].sends
    ensures Stranded(st', d, p)
  {
  }

  lemma NextStaysStranded(st: State, st': State, d: Tid, p: Tid)
    requires Inv(st) && Next(st, st') && Stranded(st, d, p)
    ensures Stranded(st', d, p)
  {
    var t, a :| Can(st, t, a) && Do(st, t, a) == st';
    StaysStranded(st, t, a, d, p);
  }

  lemma StrandedIsOpen(st: State, d: Tid, p: Tid)
    requires Inv(st) && Stranded(st, d, p)
    ensures d !in st.closedConns
  {
    OwnShare(st, d);
    assert ChanOk(st, p);
    OwnShare(st, p);
  }

  // -------------------------------------------------------- what follows

  /** Once stranded, the connection stays where it is for the rest of the run: it
      is never received, and no handler closes it. */
  lemma StrandedForEver(run: seq<State>, st: State, i: nat, d: Tid, p: Tid)
    requires Reachable(st) && Continues(run, st) && i < |run| && Stranded(st, d, p)
    ensures Stranded(run[i], d, p) && d !in run[i].closedConns && !Held(run[i], d)
  {
    ReachableInv(st);
    for k := 0 to i
      invariant Stranded(run[k], d, p)
    {
      ContinuesKeepsInv(run, st, k);
      RunStaysStranded(run, st, k, d, p);
    }
    ContinuesKeepsInv(run, st, i);
    StrandedIsOpen(run[i], d, p);
    StrandedIsNotHeld(run[i], d, p);
  }

  lemma RunStaysStranded(run: seq<State>, st: State, k: nat, d: Tid, p: Tid)
    requires Continues(run, st) && k + 1 < |run| && Inv(run[k]) && Stranded(run[k], d, p)
    ensures Stranded(run[k + 1], d, p)
  {
    assert StepAt(run, k + 1);
    NextStaysStranded(run[k], run[k + 1], d, p);
  }

  /** A player holds `d`: it has received it and not given it up. */
  ghost predicate Held(st: State, d: Tid) {
    d in st.threads && exists p :: At(st, d, WithPlayer(p))
  }

  lemma StrandedIsNotHeld(st: State, d: Tid, p: Tid)
    requires Inv(st) && Stranded(st, d, p)
    ensures !Held(st, d)
  {
    PlaceIsOnly(st, d, Buffered(p));
    forall q | At(st, d, WithPlayer(q)) ensures WithPlayer(q) == Buffered(p) {
      PlaceIsOnly(st, d, WithPlayer(q));
    }
  }

  /** However the run goes on, no player receives `d`. */
  ghost predicate Lost(st: State, d: Tid) {
    forall run, i | Continues(run, st) && 0 <= i < |run| :: !Held(run[i], d)
  }

  /** A player in its select can receive what is buffered for it. */
  lemma WaiterCanReceive(st: State, d: Tid, p: Tid)
    requires Inv(st) && IsData(st, d) && At(st, d, Buffered(p)) && st.threads[p].pc.PWait?
    ensures !Lost(st, d)
  {
    assert ChanOk(st, p);
    ReceiveHolds(st, d, p);
    var run := [st, Do(st, p, Select(Receive))];
    assert Next(st, run[1]);
    assert StepAt(run, 1);
    assert Continues(run, st) && Held(run[1], d);
  }

  lemma ReceiveHolds(st: State, d: Tid, p: Tid)
    requires IsData(st, d) && ChanOk(st, p) && At(st, d, Buffered(p)) && st.threads[p].pc.PWait?
    ensures CanSelect(st, p, Receive) && Held(DoSelect(st, p, Receive), d)
  {
    var st' := DoSelect(st, p, Receive);
    assert st.chans[p].sends == [d];
    assert At(st', d, WithPlayer(p));
  }

  /** A delivered connection is lost if and only if its player has left its select
      without it. */
  lemma LostIffStranded(st: State, d: Tid, p: Tid)
    requires Reachable(st) && IsData(st, d) && At(st, d, Buffered(p))
    ensures Lost(st, d) <==> Stranded(st, d, p)
  {
    ReachableInv(st);
    if st.threads[p].pc.PWait? {
      WaiterCanReceive(st, d, p);
    } else {
      forall run, i | Continues(run, st) && 0 <= i < |run| ensures !Held(run[i], d) {
        StrandedForEver(run, st, i, d, p);
      }
    }
  }

  lemma NextIsReachable(st: State, t: Tid, a: Action)
    requires Reachable(st) && !st.panicked && Can(st, t, a)
    ensures Reachable(Do(st, t, a))
  {
    var run :| IsRun(run) && run[|run| - 1] == st;
    var more := run + [Do(st, t, a)];
    assert Next(st, Do(st, t, a));
    forall i | 0 < i < |more| ensures StepAt(more, i) {
      if i < |run| { assert StepAt(run, i); }
    }
    assert IsRun(more);
  }

  predicate Sending(pc: Pc, p: Tid) {
    pc.DSend? && pc.ch == p
  }

  lemma SendBuffers(st: State, d: Tid, p: Tid)
    requires ThreadOk(st, d) && p in st.threads && ChanOk(st, p) && Sending(st.threads[d].pc, p)
    requires CanResolve(st, d, Send) && !DoResolve(st, d, Send).panicked
    ensures var st' := DoResolve(st, d, Send);
            IsData(st', d) && At(st', d, Buffered(p)) && st'.threads[p] == st.threads[p]
  {
    assert st.chans[p].sends == [] && !st.chans[p].taken;
  }

  /** A delivery loses its connection if and only if it comes after the player left
      its select. */
  lemma DeliveryLosesIffLate(st: State, d: Tid, p: Tid)
    requires Reachable(st) && d in st.threads && p in st.threads && Sending(st.threads[d].pc, p)
    ensures Can(st, d, Resolve(Send))
    ensures Lost(Do(st, d, Resolve(Send)), d) <==> !st.threads[p].pc.PWait?
  {
    ReachableInv(st);
    SenderCanSend(st, d);
    OwnShare(st, d);
    SendBuffers(st, d, p);
    NextIsReachable(st, d, Resolve(Send));
    LostIffStranded(Do(st, d, Resolve(Send)), d, p);
  }

  /** A timer that is chosen over a buffered connection loses it, although it could
      have been received until then. */
  lemma TimeoutLosesBuffered(st: State, d: Tid, p: Tid)
    requires Reachable(st) && IsData(st, d) && At(st, d, Buffered(p)) && st.threads[p].pc.PWait?
    ensures Can(st, p, Select(Timeout))
    ensures !Lost(st, d) && Lost(Do(st, p, Select(Timeout)), d)
  {
    ReachableInv(st);
    MayTimeOut(st, p);
    GiveUpStrands(st, d, p);
    LostIffStranded(st, d, p);
    NextIsReachable(st, p, Select(Timeout));
    LostIffStranded(Do(st, p, Select(Timeout)), d, p);
  }

  /** The timer may be chosen at any time. */
  lemma MayTimeOut(st: State, p: Tid)
    requires Inv(st) && p in st.threads && st.threads[p].pc.PWait?
    ensures Can(st, p, Select(Timeout))
  {
    OwnShare(st, p);
  }

  lemma GiveUpStrands(st: State, d: Tid, p: Tid)
    requires IsData(st, d) && At(st, d, Buffered(p)) && CanSelect(st, p, Timeout)
    ensures Stranded(DoSelect(st, p, Timeout), d, p) && st.threads[p].pc.PWait?
  {
  }
}
