/** A CONN_READY that looks for a registered player. With the token of the session
    it is delivered to that player unless the player gave up first or another
    CONN_READY came first; with another token it is refused. */
module Answers {
  import opened Wrappers
  import opened Rendezvous
  import opened RendezvousInvariant
  import opened RendezvousSteps
  import opened RendezvousProperties
  import opened Stranding

  /** Session `s` is still to be looked at, or being looked at. */
  predicate Ahead(pc: Pc, s: Tid) {
    || (pc.DScan? && s in pc.todo)
    || ((pc.DCheck? || pc.DLook?) && (pc.s == s || s in pc.todo))
  }

  /** `d` carries the conn_id of the registered player `p` and the token of its
      session. */
  predicate Answering(st: State, d: Tid, p: Tid) {
    IsData(st, d) && InMap(st, p)
    && st.threads[d].role == Data(st.chans[p].cid, st.sess[st.chans[p].sess].token)
  }

  /** ... and has its entry before it. */
  predicate Reaching(st: State, d: Tid, p: Tid) {
    Answering(st, d, p) &&
    var s := st.chans[p].sess;
    Ahead(st.threads[d].pc, s) || st.threads[d].pc == DResolve(s) || st.threads[d].pc == DTake(s)
  }

  /** `d` took the entry of `p` out of the map, to send or having sent. */
  predicate Took(st: State, d: Tid, p: Tid) {
    IsData(st, d) && (Sending(st.threads[d].pc, p) || IsSender(st, p, d))
  }

  /** The wait of `p` timed out and removed its own entry. */
  predicate Withdrawn(st: State, p: Tid) {
    p in st.threads && GaveUp(st.threads[p].pc) && st.threads[p].pc.why.removedOwn
  }

  ghost predicate Decided(st: State, d: Tid, p: Tid) {
    Reaching(st, d, p) || Withdrawn(st, p) || exists t :: Took(st, t, p)
  }

  /** No other player uses the conn_id of `p`. */
  predicate OnlyUser(st: State, p: Tid) {
    p in st.chans && forall q | q in st.chans && st.chans[q].cid == st.chans[p].cid :: q == p
  }

  // ------------------------------------------------- steps of other threads

  /** The key of `p` and the token of its session are what they were. */
  predicate KeyKept(st: State, p: Tid, st': State) {
    && p in st.chans && p in st'.chans && SameKey(st'.chans[p], st.chans[p])
    && st.chans[p].sess in st.sess && st.chans[p].sess in st'.sess
    && st'.sess[st.chans[p].sess].token == st.sess[st.chans[p].sess].token
  }

  /** ... and its entry, if it has one, is still there. */
  predicate EntryKept(st: State, p: Tid, st': State) {
    KeyKept(st, p, st') && (InMap(st, p) ==> InMap(st', p))
  }

  predicate HasKey(st: State, p: Tid) {
    p in st.chans && st.chans[p].sess in st.sess
  }

  lemma RouteKeepsEntry(st: State, t: Tid, a: RouteStep, p: Tid)
    requires HasKey(st, p) && CanRoute(st, t, a)
    ensures EntryKept(st, p, DoRoute(st, t, a))
  {
  }

  lemma BridgeKeepsEntry(st: State, t: Tid, a: BridgeStep, p: Tid)
    requires HasKey(st, p) && CanBridge(st, t, a)
    ensures EntryKept(st, p, DoBridge(st, t, a))
  {
  }

  lemma ScanKeepsEntry(st: State, t: Tid, a: ScanStep, p: Tid)
    requires HasKey(st, p) && CanScan(st, t, a)
    ensures EntryKept(st, p, DoScan(st, t, a))
  {
  }

  lemma LookKeepsEntry(st: State, t: Tid, a: LookStep, p: Tid)
    requires HasKey(st, p) && CanLook(st, t, a)
    ensures EntryKept(st, p, DoLook(st, t, a))
  {
  }

  lemma SampleKeepsEntry(st: State, t: Tid, a: SampleStep, p: Tid)
    requires HasKey(st, p) && CanSample(st, t, a)
    ensures EntryKept(st, p, DoSample(st, t, a))
  {
  }

  lemma SelectKeepsEntry(st: State, t: Tid, a: SelectStep, p: Tid)
    requires HasKey(st, p) && CanSelect(st, t, a) && !a.Delete?
    ensures EntryKept(st, p, DoSelect(st, t, a))
  {
  }

  lemma RegisterKeepsEntry(st: State, t: Tid, a: RegisterStep, p: Tid)
    requires HasKey(st, p) && CanRegister(st, t, a) && ThreadOk(st, t) && OnlyUser(DoRegister(st, t, a), p)
    ensures EntryKept(st, p, DoRegister(st, t, a))
  {
    if a.Insert? { assert t in DoRegister(st, t, a).chans; }
  }

  lemma ManageKeepsEntry(st: State, t: Tid, a: ManageStep, p: Tid)
    requires HasKey(st, p) && CanManage(st, t, a) && ThreadOk(st, t)
    ensures EntryKept(st, p, DoManage(st, t, a))
  {
  }

  lemma CloseKeepsKey(st: State, t: Tid, a: CloseStep, p: Tid)
    requires HasKey(st, p) && CanClose(st, t, a)
    ensures KeyKept(st, p, DoClose(st, t, a))
  {
  }

  /** Session.Close runs under the write lock. */
  lemma CloseIsExclusive(st: State, t: Tid, a: CloseStep)
    requires CanClose(st, t, a) && LockOk(st, t)
    ensures st.readers == {}
  {
  }

  lemma DeleteKeepsKey(st: State, t: Tid, p: Tid)
    requires HasKey(st, p) && CanSelect(st, t, Delete)
    ensures KeyKept(st, p, DoSelect(st, t, Delete))
  {
  }

  lemma DeleteWithdraws(st: State, t: Tid, p: Tid)
    requires HasKey(st, p) && CanSelect(st, t, Delete) && OnlyUser(st, p)
    requires t in st.chans && ChanOk(st, t)
    ensures EntryKept(st, p, DoSelect(st, t, Delete)) || Withdrawn(DoSelect(st, t, Delete), p)
  {
  }

  lemma ResolveKeepsKey(st: State, t: Tid, a: ResolveStep, p: Tid)
    requires HasKey(st, p) && CanResolve(st, t, a)
    ensures KeyKept(st, p, DoResolve(st, t, a))
  {
  }

  lemma ResolveTakes(st: State, t: Tid, a: ResolveStep, p: Tid)
    requires HasKey(st, p) && CanResolve(st, t, a)
    ensures EntryKept(st, p, DoResolve(st, t, a)) || Took(DoResolve(st, t, a), t, p)
  {
    ResolveKeepsKey(st, t, a, p);
  }

  lemma KeyStep(st: State, t: Tid, a: Action, p: Tid)
    requires KnowsItself(st, t) && Can(st, t, a) && HasKey(st, p) && OnlyUser(Do(st, t, a), p)
    ensures KeyKept(st, p, Do(st, t, a))
  {
    match a {
      case Spawn(_) =>
      case Route(x) => RouteKeepsEntry(st, t, x, p);
      case Register(x) => RegisterKeepsEntry(st, t, x, p);
      case Select(x) => if x.Delete? { DeleteKeepsKey(st, t, p); } else { SelectKeepsEntry(st, t, x, p); }
      case Bridge(x) => BridgeKeepsEntry(st, t, x, p);
      case Scan(x) => ScanKeepsEntry(st, t, x, p);
      case LookUp(x) => LookKeepsEntry(st, t, x, p);
      case Resolve(x) => ResolveKeepsKey(st, t, x, p);
      case Manage(x) => ManageKeepsEntry(st, t, x, p);
      case Close(x) => CloseKeepsKey(st, t, x, p);
      case Stat(x) => SampleKeepsEntry(st, t, x, p);
    }
  }

  /** What a thread knows of itself. */
  ghost predicate KnowsItself(st: State, t: Tid) {
    t in st.threads ==> ThreadOk(st, t) && LockOk(st, t) && (t in st.chans ==> ChanOk(st, t))
  }

  lemma EntryStep(st: State, t: Tid, a: Action, p: Tid)
    requires KnowsItself(st, t) && Can(st, t, a) && InMap(st, p) && st.readers != {}
    requires OnlyUser(st, p) && OnlyUser(Do(st, t, a), p)
    ensures var st' := Do(st, t, a);
            EntryKept(st, p, st') || Withdrawn(st', p) || Took(st', t, p)
  {
    match a {
      case Spawn(_) =>
      case Route(x) => RouteKeepsEntry(st, t, x, p);
      case Register(x) => RegisterKeepsEntry(st, t, x, p);
      case Select(x) =>
        if x.Delete? { DeleteWithdraws(st, t, p); } else { SelectKeepsEntry(st, t, x, p); }
      case Bridge(x) => BridgeKeepsEntry(st, t, x, p);
      case Scan(x) => ScanKeepsEntry(st, t, x, p);
      case LookUp(x) => LookKeepsEntry(st, t, x, p);
      case Resolve(x) => ResolveTakes(st, t, x, p);
      case Manage(x) => ManageKeepsEntry(st, t, x, p);
      case Close(x) =>
        CloseIsExclusive(st, t, x);
        assert false;
      case Stat(x) => SampleKeepsEntry(st, t, x, p);
    }
  }

  // ------------------------------------------------------ steps of its own

  lemma ScanStaysReaching(st: State, d: Tid, a: ScanStep, p: Tid)
    requires Reaching(st, d, p) && CanScan(st, d, a)
    ensures Reaching(DoScan(st, d, a), d, p)
  {
  }

  /** An entry under the conn_id is that of `p`. */
  predicate NoOtherEntry(st: State, s: Tid, p: Tid)
    requires InMap(st, p)
  {
    s in st.sess && st.chans[p].cid in st.sess[s].pending ==> s == st.chans[p].sess
  }

  lemma EntryIsOnly(st: State, s: Tid, p: Tid)
    requires Inv(st) && InMap(st, p) && OnlyUser(st, p)
    ensures NoOtherEntry(st, s, p)
  {
    if s in st.sess && st.chans[p].cid in st.sess[s].pending { assert EntryOk(st, s, st.chans[p].cid); }
  }

  lemma LookStaysReaching(st: State, d: Tid, a: LookStep, p: Tid)
    requires Reaching(st, d, p) && CanLook(st, d, a) && NoOtherEntry(st, st.threads[d].pc.s, p)
    ensures Reaching(DoLook(st, d, a), d, p)
  {
  }

  lemma ResolveReaches(st: State, d: Tid, a: ResolveStep, p: Tid)
    requires Reaching(st, d, p) && CanResolve(st, d, a)
    ensures Reaching(DoResolve(st, d, a), d, p) || Took(DoResolve(st, d, a), d, p)
  {
  }

  lemma OwnKinds(st: State, d: Tid, a: Action)
    requires IsData(st, d) && Can(st, d, a)
    ensures a.Scan? || a.LookUp? || a.Resolve?
  {
  }

  lemma OwnStep(st: State, d: Tid, a: Action, p: Tid)
    requires Inv(st) && Reaching(st, d, p) && OnlyUser(st, p) && Can(st, d, a)
    ensures Reaching(Do(st, d, a), d, p) || Took(Do(st, d, a), d, p)
  {
    OwnKinds(st, d, a);
    match a {
      case Scan(x) => ScanStaysReaching(st, d, x, p);
      case LookUp(x) =>
        EntryIsOnly(st, st.threads[d].pc.s, p);
        LookStaysReaching(st, d, x, p);
      case Resolve(x) => ResolveReaches(st, d, x, p);
      case _ =>
    }
  }

  // ----------------------------------------------------------- every step

  /** A thread that is not moved keeps all that is said of it. */
  lemma OtherKeepsReaching(st: State, st': State, d: Tid, p: Tid)
    requires Reaching(st, d, p) && LeavesAlone(st, d, st') && EntryKept(st, p, st')
    ensures Reaching(st', d, p)
  {
  }

  lemma ReachingReads(st: State, d: Tid, p: Tid)
    requires Inv(st) && Reaching(st, d, p)
    ensures st.readers != {}
  {
    assert LockOk(st, d);
  }

  lemma ReachingStep(st: State, t: Tid, a: Action, d: Tid, p: Tid)
    requires Inv(st) && Can(st, t, a) && Reaching(st, d, p)
    requires OnlyUser(st, p) && OnlyUser(Do(st, t, a), p)
    ensures Decided(Do(st, t, a), d, p)
  {
    if t == d {
      OwnStep(st, d, a, p);
    } else {
      ReachingReads(st, d, p);
      assert KnowsItself(st, t);
      EntryStep(st, t, a, p);
      OthersLeaveAlone(st, t, a, d);
      if EntryKept(st, p, Do(st, t, a)) { OtherKeepsReaching(st, Do(st, t, a), d, p); }
    }
  }

  lemma TookScan(st: State, d: Tid, a: ScanStep, p: Tid)
    requires Took(st, d, p) && CanScan(st, d, a)
    ensures Took(DoScan(st, d, a), d, p)
  {
  }

  lemma TookResolve(st: State, d: Tid, a: ResolveStep, p: Tid)
    requires Took(st, d, p) && CanResolve(st, d, a) && (a.Send? ==> !DoResolve(st, d, a).panicked)
    ensures Took(DoResolve(st, d, a), d, p)
  {
  }

  lemma TookIsKept(st: State, t: Tid, a: Action, d: Tid, p: Tid)
    requires Inv(st) && Can(st, t, a) && Took(st, d, p)
    ensures Took(Do(st, t, a), d, p)
  {
    if t != d {
      OthersLeaveAlone(st, t, a, d);
    } else {
      OwnKinds(st, d, a);
      match a {
        case Scan(x) => TookScan(st, d, x, p);
        case Resolve(x) =>
          if x.Send? { SenderCanSend(st, d); }
          TookResolve(st, d, x, p);
        case _ =>
      }
    }
  }

  lemma EndedStays(st: State, p: Tid, a: Action)
    requires IsPlayer(st, p) && st.threads[p].pc.PEnd?
    ensures !Can(st, p, a)
  {
  }

  lemma WithdrawnIsKept(st: State, t: Tid, a: Action, p: Tid)
    requires Inv(st) && Can(st, t, a) && Withdrawn(st, p)
    ensures Withdrawn(Do(st, t, a), p)
  {
    OwnShare(st, p);
    EndedStays(st, p, a);
    OthersLeaveAlone(st, t, a, p);
  }

  lemma DecidedStep(st: State, t: Tid, a: Action, d: Tid, p: Tid)
    requires Inv(st) && Can(st, t, a) && Decided(st, d, p)
    requires OnlyUser(st, p) && OnlyUser(Do(st, t, a), p)
    ensures Decided(Do(st, t, a), d, p)
  {
    if Reaching(st, d, p) {
      ReachingStep(st, t, a, d, p);
    } else if Withdrawn(st, p) {
      WithdrawnIsKept(st, t, a, p);
    } else {
      var u :| Took(st, u, p);
      TookIsKept(st, t, a, u, p);
    }
  }

  lemma NextIsDecided(run: seq<State>, st: State, k: nat, d: Tid, p: Tid)
    requires Continues(run, st) && k + 1 < |run| && Inv(run[k]) && Decided(run[k], d, p)
    requires OnlyUser(run[k], p) && OnlyUser(run[k + 1], p)
    ensures Decided(run[k + 1], d, p)
  {
    assert StepAt(run, k + 1);
    var t, a :| Can(run[k], t, a) && Do(run[k], t, a) == run[k + 1];
    DecidedStep(run[k], t, a, d, p);
  }

  // -------------------------------------------------------------- the result

  /** The handler takes the read lock: every mapped session is ahead of it. */
  lemma ScanStartsBefore(st: State, d: Tid, p: Tid)
    requires Reachable(st) && !st.panicked && Answering(st, d, p) && Mapped(st, st.chans[p].sess)
    requires CanScan(st, d, DataRLock)
    ensures Reachable(Do(st, d, Scan(DataRLock))) && Reaching(DoScan(st, d, DataRLock), d, p)
  {
    NextIsReachable(st, d, Scan(DataRLock));
  }

  lemma StaysDecided(run: seq<State>, st: State, i: nat, d: Tid, p: Tid)
    requires Reachable(st) && Continues(run, st) && i < |run| && Decided(st, d, p)
    requires forall k | 0 <= k <= i :: OnlyUser(run[k], p)
    ensures Inv(run[i]) && Decided(run[i], d, p)
  {
    ReachableInv(st);
    for k := 0 to i
      invariant Decided(run[k], d, p)
    {
      ContinuesKeepsInv(run, st, k);
      NextIsDecided(run, st, k, d, p);
    }
    ContinuesKeepsInv(run, st, i);
  }

  /** What took the entry of `p` is one handler. */
  lemma OneTakes(st: State, d: Tid, p: Tid)
    requires Inv(st) && Took(st, d, p)
    ensures p in st.chans && st.chans[p].sender == Some(d)
  {
    OwnShare(st, d);
    if !st.threads[d].pc.DSend? { assert ChanOk(st, p); }
  }

  lemma TakenIsNotWithdrawn(st: State, d: Tid, p: Tid)
    requires Inv(st) && Took(st, d, p)
    ensures !Withdrawn(st, p)
  {
    OneTakes(st, d, p);
    assert ChanOk(st, p);
  }

  /** Where the handler ends, given what became of the entry. */
  lemma EndIsDecided(st: State, d: Tid, p: Tid)
    requires Inv(st) && Decided(st, d, p) && d in st.threads && st.threads[d].pc.DEnd?
    ensures st.threads[d].pc.out == Delivered(p) <==> !Withdrawn(st, p) && !exists t :: t != d && Took(st, t, p)
  {
    OwnShare(st, d);
    if Took(st, d, p) {
      TakenIsNotWithdrawn(st, d, p);
      OneTakes(st, d, p);
      forall t | Took(st, t, p) ensures t == d { OneTakes(st, t, p); }
    }
  }

  /** A CONN_READY whose handler takes the read lock when the player is registered
      in a mapped session, with the token of the session and a conn_id nobody else
      uses, ends delivered to that player, unless the wait of the player timed out
      with its entry still there, or another CONN_READY with the same conn_id was
      first, and then it does not. The session cannot be closed in between. */
  lemma RegisteredIsAnswered(run: seq<State>, st: State, i: nat, d: Tid, p: Tid)
    requires Reachable(st) && Answering(st, d, p) && Mapped(st, st.chans[p].sess) && Can(st, d, Scan(DataRLock))
    requires Continues(run, Do(st, d, Scan(DataRLock))) && i < |run|
    requires forall k | 0 <= k <= i :: OnlyUser(run[k], p)
    requires d in run[i].threads && run[i].threads[d].pc.DEnd?
    ensures run[i].threads[d].pc.out == Delivered(p)
            <==> !Withdrawn(run[i], p) && !exists t :: t != d && Took(run[i], t, p)
  {
    ChannelsAreOneShot(st);
    ScanStartsBefore(st, d, p);
    ReachingIsDecided(run, run[0], i, d, p);
  }

  lemma ReachingIsDecided(run: seq<State>, st: State, i: nat, d: Tid, p: Tid)
    requires Reachable(st) && Reaching(st, d, p) && Continues(run, st) && i < |run|
    requires forall k | 0 <= k <= i :: OnlyUser(run[k], p)
    requires d in run[i].threads && run[i].threads[d].pc.DEnd?
    ensures run[i].threads[d].pc.out == Delivered(p)
            <==> !Withdrawn(run[i], p) && !exists t :: t != d && Took(run[i], t, p)
  {
    StaysDecided(run, st, i, d, p);
    EndIsDecided(run[i], d, p);
  }

  // ------------------------------------------------------------ a wrong token

  /** `d` carries the conn_id of `p`, and not the token of its session. */
  predicate Misdirected(st: State, d: Tid, p: Tid) {
    IsData(st, d) && HasKey(st, p)
    && st.threads[d].role.cid == st.chans[p].cid && st.threads[d].role.token != st.sess[st.chans[p].sess].token
  }

  /** The handler stopped because of the token, with its connection closed. */
  predicate TurnedAway(st: State, d: Tid) {
    IsData(st, d) && (st.threads[d].pc == DUnlock(Refused) || st.threads[d].pc == DEnd(Refused)) && d in st.closedConns
  }

  ghost predicate Turned(st: State, d: Tid, p: Tid) {
    || TurnedAway(st, d) || (IsData(st, d) && InMap(st, p) && Ahead(st.threads[d].pc, st.chans[p].sess))
    || Withdrawn(st, p) || exists t :: Took(st, t, p)
  }

  lemma AwayScan(st: State, d: Tid, a: ScanStep)
    requires TurnedAway(st, d) && CanScan(st, d, a)
    ensures TurnedAway(DoScan(st, d, a), d)
  {
  }

  lemma AwayKinds(st: State, d: Tid, a: Action)
    requires TurnedAway(st, d) && Can(st, d, a)
    ensures a.Scan?
  {
  }

  /** A handler that was turned away stays so. */
  lemma AwayIsKept(st: State, t: Tid, a: Action, d: Tid)
    requires Inv(st) && Can(st, t, a) && TurnedAway(st, d)
    ensures TurnedAway(Do(st, t, a), d)
  {
    if t == d {
      AwayKinds(st, d, a);
      AwayScan(st, d, a.scan);
    } else {
      OthersLeaveAlone(st, t, a, d);
      StepKeepsInv(st, t, a);
      RefusedIsClosed(Do(st, t, a), d);
    }
  }

  lemma RefusedIsClosed(st: State, d: Tid)
    requires Inv(st) && IsData(st, d) && (st.threads[d].pc == DUnlock(Refused) || st.threads[d].pc == DEnd(Refused))
    ensures TurnedAway(st, d)
  {
    OwnShare(st, d);
  }

  /** Looking at a session that has the conn_id and another token. */
  lemma LookTurnsAway(st: State, d: Tid)
    requires CanLook(st, d, Look) && st.threads[d].role.cid in st.sess[st.threads[d].pc.s].pending
    requires st.sess[st.threads[d].pc.s].token != st.threads[d].role.token
    ensures TurnedAway(DoLook(st, d, Look), d)
  {
  }

  lemma NextStaysAway(run: seq<State>, st: State, k: nat, d: Tid)
    requires Continues(run, st) && k + 1 < |run| && Inv(run[k]) && TurnedAway(run[k], d)
    ensures TurnedAway(run[k + 1], d)
  {
    assert StepAt(run, k + 1);
    var t, a :| Can(run[k], t, a) && Do(run[k], t, a) == run[k + 1];
    AwayIsKept(run[k], t, a, d);
  }

  lemma StaysAway(run: seq<State>, st: State, i: nat, d: Tid)
    requires Reachable(st) && Continues(run, st) && i < |run| && TurnedAway(st, d)
    ensures TurnedAway(run[i], d)
  {
    ReachableInv(st);
    for k := 0 to i
      invariant TurnedAway(run[k], d)
    {
      ContinuesKeepsInv(run, st, k);
      NextStaysAway(run, st, k, d);
    }
  }

  lemma TakeTurnsAway(st: State, d: Tid)
    requires CanResolve(st, d, Take) && st.threads[d].role.cid !in st.sess[st.threads[d].pc.s].pending
    ensures TurnedAway(DoResolve(st, d, Take), d)
  {
  }

  /** The handler sees its conn_id in a session with another token, or finds its entry
      gone after the token matched. */
  predicate Refuses(st: State, d: Tid, a: Action)
    requires Can(st, d, a)
  {
    || (a == LookUp(Look) && st.threads[d].role.cid in st.sess[st.threads[d].pc.s].pending
        && st.sess[st.threads[d].pc.s].token != st.threads[d].role.token)
    || (a == Resolve(Take) && st.threads[d].role.cid !in st.sess[st.threads[d].pc.s].pending)
  }

  /** A handler that has looked at a session with its conn_id and another token, or
      came too late for the entry it had matched, is refused and its connection
      closed, whatever other sessions hold: from then on and for good it is delivered
      to nobody. conn_ids may collide. */
  lemma RefusalIsFinal(run: seq<State>, st: State, a: Action, i: nat, d: Tid)
    requires Reachable(st) && Can(st, d, a) && Refuses(st, d, a)
    requires Continues(run, Do(st, d, a)) && i < |run|
    ensures d in run[i].threads && d in run[i].closedConns
    ensures run[i].threads[d].pc == DUnlock(Refused) || run[i].threads[d].pc == DEnd(Refused)
  {
    ChannelsAreOneShot(st);
    NextIsReachable(st, d, a);
    if a.LookUp? { LookTurnsAway(st, d); } else { TakeTurnsAway(st, d); }
    StaysAway(run, run[0], i, d);
  }

  lemma MisScan(st: State, d: Tid, a: ScanStep, p: Tid)
    requires Misdirected(st, d, p) && InMap(st, p) && Ahead(st.threads[d].pc, st.chans[p].sess) && CanScan(st, d, a)
    ensures Turned(DoScan(st, d, a), d, p)
  {
  }

  lemma MisLook(st: State, d: Tid, a: LookStep, p: Tid)
    requires Misdirected(st, d, p) && InMap(st, p) && Ahead(st.threads[d].pc, st.chans[p].sess) && CanLook(st, d, a)
    requires NoOtherEntry(st, st.threads[d].pc.s, p)
    ensures Turned(DoLook(st, d, a), d, p)
  {
    if a.Look? && st.threads[d].role.cid in st.sess[st.threads[d].pc.s].pending { LookTurnsAway(st, d); }
  }

  lemma MisOwnStep(st: State, d: Tid, a: Action, p: Tid)
    requires Inv(st) && Misdirected(st, d, p) && InMap(st, p) && Ahead(st.threads[d].pc, st.chans[p].sess)
    requires OnlyUser(st, p) && Can(st, d, a)
    ensures Turned(Do(st, d, a), d, p)
  {
    AheadKinds(st, d, a, st.chans[p].sess);
    if a.Scan? {
      MisScan(st, d, a.scan, p);
    } else {
      EntryIsOnly(st, st.threads[d].pc.s, p);
      MisLook(st, d, a.look, p);
    }
  }

  lemma AheadKinds(st: State, d: Tid, a: Action, s: Tid)
    requires IsData(st, d) && Ahead(st.threads[d].pc, s) && Can(st, d, a)
    ensures a.Scan? || a.LookUp?
  {
  }

  lemma AheadReads(st: State, d: Tid, s: Tid)
    requires Inv(st) && IsData(st, d) && Ahead(st.threads[d].pc, s)
    ensures st.readers != {}
  {
    assert LockOk(st, d);
  }

  /** The entry is still ahead of a handler that has not moved. */
  lemma StillAhead(st: State, st': State, d: Tid, p: Tid)
    requires IsData(st, d) && InMap(st, p) && Ahead(st.threads[d].pc, st.chans[p].sess)
    requires LeavesAlone(st, d, st') && EntryKept(st, p, st')
    ensures Turned(st', d, p)
  {
  }

  lemma TurnedStep(st: State, t: Tid, a: Action, d: Tid, p: Tid)
    requires Inv(st) && Can(st, t, a) && Misdirected(st, d, p) && Turned(st, d, p)
    requires OnlyUser(st, p) && OnlyUser(Do(st, t, a), p)
    ensures Turned(Do(st, t, a), d, p)
  {
    if TurnedAway(st, d) {
      AwayIsKept(st, t, a, d);
    } else if InMap(st, p) && Ahead(st.threads[d].pc, st.chans[p].sess) {
      if t == d { MisOwnStep(st, d, a, p); } else { TurnedOtherStep(st, t, a, d, p); }
    } else if Withdrawn(st, p) {
      WithdrawnIsKept(st, t, a, p);
    } else {
      var u :| Took(st, u, p);
      TookIsKept(st, t, a, u, p);
    }
  }

  lemma TurnedOtherStep(st: State, t: Tid, a: Action, d: Tid, p: Tid)
    requires Inv(st) && Can(st, t, a) && t != d
    requires IsData(st, d) && InMap(st, p) && Ahead(st.threads[d].pc, st.chans[p].sess)
    requires OnlyUser(st, p) && OnlyUser(Do(st, t, a), p)
    ensures Turned(Do(st, t, a), d, p)
  {
    AheadReads(st, d, st.chans[p].sess);
    assert KnowsItself(st, t);
    EntryStep(st, t, a, p);
    OthersLeaveAlone(st, t, a, d);
    if EntryKept(st, p, Do(st, t, a)) { StillAhead(st, Do(st, t, a), d, p); }
  }

  /** A handler keeps its role. */
  lemma RoleScan(st: State, d: Tid, a: ScanStep)
    requires CanScan(st, d, a)
    ensures IsData(DoScan(st, d, a), d) && DoScan(st, d, a).threads[d].role == st.threads[d].role
  {
  }

  lemma RoleLook(st: State, d: Tid, a: LookStep)
    requires CanLook(st, d, a)
    ensures IsData(DoLook(st, d, a), d) && DoLook(st, d, a).threads[d].role == st.threads[d].role
  {
  }

  lemma RoleResolve(st: State, d: Tid, a: ResolveStep)
    requires CanResolve(st, d, a)
    ensures IsData(DoResolve(st, d, a), d) && DoResolve(st, d, a).threads[d].role == st.threads[d].role
  {
  }

  lemma RoleIsKept(st: State, t: Tid, a: Action, d: Tid)
    requires IsData(st, d) && Can(st, t, a)
    ensures IsData(Do(st, t, a), d) && Do(st, t, a).threads[d].role == st.threads[d].role
  {
    if t != d {
      OthersLeaveAlone(st, t, a, d);
    } else {
      OwnKinds(st, d, a);
      match a {
        case Scan(x) => RoleScan(st, d, x);
        case LookUp(x) => RoleLook(st, d, x);
        case Resolve(x) => RoleResolve(st, d, x);
        case _ =>
      }
    }
  }

  lemma MisdirectedIsKept(st: State, t: Tid, a: Action, d: Tid, p: Tid)
    requires Inv(st) && Can(st, t, a) && Misdirected(st, d, p) && OnlyUser(Do(st, t, a), p)
    ensures Misdirected(Do(st, t, a), d, p)
  {
    assert KnowsItself(st, t);
    KeyStep(st, t, a, p);
    RoleIsKept(st, t, a, d);
  }

  lemma NextIsTurned(run: seq<State>, st: State, k: nat, d: Tid, p: Tid)
    requires Continues(run, st) && k + 1 < |run| && Inv(run[k])
    requires Misdirected(run[k], d, p) && Turned(run[k], d, p)
    requires OnlyUser(run[k], p) && OnlyUser(run[k + 1], p)
    ensures Misdirected(run[k + 1], d, p) && Turned(run[k + 1], d, p)
  {
    assert StepAt(run, k + 1);
    var t, a :| Can(run[k], t, a) && Do(run[k], t, a) == run[k + 1];
    MisdirectedIsKept(run[k], t, a, d, p);
    TurnedStep(run[k], t, a, d, p);
  }

  lemma StaysTurned(run: seq<State>, st: State, i: nat, d: Tid, p: Tid)
    requires Reachable(st) && Continues(run, st) && i < |run| && Misdirected(st, d, p) && Turned(st, d, p)
    requires forall k | 0 <= k <= i :: OnlyUser(run[k], p)
    ensures Inv(run[i]) && Misdirected(run[i], d, p) && Turned(run[i], d, p)
  {
    ReachableInv(st);
    for k := 0 to i
      invariant Misdirected(run[k], d, p) && Turned(run[k], d, p)
    {
      ContinuesKeepsInv(run, st, k);
      NextIsTurned(run, st, k, d, p);
    }
    ContinuesKeepsInv(run, st, i);
  }

  /** What was delivered carries the conn_id of its player and the token of the
      session of that player. */
  lemma DeliveredCarriesToken(st: State, d: Tid)
    requires Inv(st) && IsData(st, d) && HandedOver(st.threads[d].pc)
    ensures var p := st.threads[d].pc.out.p;
            HasKey(st, p) && st.threads[d].role == Data(st.chans[p].cid, st.sess[st.chans[p].sess].token)
  {
    OwnShare(st, d);
    assert ChanOk(st, st.threads[d].pc.out.p);
  }

  lemma MisdirectedIsNotDelivered(st: State, d: Tid, p: Tid)
    requires Inv(st) && Misdirected(st, d, p) && OnlyUser(st, p) && st.threads[d].pc.DEnd?
    ensures !st.threads[d].pc.out.Delivered? && d in st.closedConns
  {
    OwnShare(st, d);
    if st.threads[d].pc.out.Delivered? { DeliveredCarriesToken(st, d); }
  }

  lemma WrongScanStarts(st: State, d: Tid, p: Tid)
    requires Reachable(st) && !st.panicked && Misdirected(st, d, p) && InMap(st, p) && Mapped(st, st.chans[p].sess)
    requires CanScan(st, d, DataRLock)
    ensures Reachable(Do(st, d, Scan(DataRLock))) && Misdirected(DoScan(st, d, DataRLock), d, p)
    ensures Turned(DoScan(st, d, DataRLock), d, p)
  {
    NextIsReachable(st, d, Scan(DataRLock));
  }

  /** A CONN_READY whose handler takes the read lock when the player with its conn_id
      is registered in a mapped session, and which carries another token than that
      session, is never delivered: its connection is closed, and it is refused
      unless the entry was withdrawn or taken before it was looked at. */
  lemma WrongTokenIsRefused(run: seq<State>, st: State, i: nat, d: Tid, p: Tid)
    requires Reachable(st) && Misdirected(st, d, p) && InMap(st, p) && Mapped(st, st.chans[p].sess)
    requires Can(st, d, Scan(DataRLock))
    requires Continues(run, Do(st, d, Scan(DataRLock))) && i < |run|
    requires forall k | 0 <= k <= i :: OnlyUser(run[k], p)
    requires d in run[i].threads && run[i].threads[d].pc.DEnd?
    ensures d in run[i].closedConns && !run[i].threads[d].pc.out.Delivered?
    ensures run[i].threads[d].pc.out == Refused || Withdrawn(run[i], p) || exists t :: Took(run[i], t, p)
  {
    ChannelsAreOneShot(st);
    WrongScanStarts(st, d, p);
    TurnedIsRefused(run, run[0], i, d, p);
  }

  lemma TurnedIsRefused(run: seq<State>, st: State, i: nat, d: Tid, p: Tid)
    requires Reachable(st) && Misdirected(st, d, p) && Turned(st, d, p) && Continues(run, st) && i < |run|
    requires forall k | 0 <= k <= i :: OnlyUser(run[k], p)
    requires d in run[i].threads && run[i].threads[d].pc.DEnd?
    ensures d in run[i].closedConns && !run[i].threads[d].pc.out.Delivered?
    ensures run[i].threads[d].pc.out == Refused || Withdrawn(run[i], p) || exists t :: Took(run[i], t, p)
  {
    StaysTurned(run, st, i, d, p);
    MisdirectedIsNotDelivered(run[i], d, p);
  }
}
