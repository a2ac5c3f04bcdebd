/** What the rendezvous protocol guarantees in every reachable state, for any
    number of threads and any interleaving. */
module RendezvousProperties {
  import opened Wrappers
  import opened Rendezvous
  import opened RendezvousInvariant
  import opened RendezvousSteps

  // ------------------------------------------------------- channel events

  /** A channel sees at most one event in its life, so no send hits a closed
      channel and no channel is closed twice (either would panic), and a handler
      about to send is never blocked. conn_ids may collide. */
  lemma ChannelsAreOneShot(st: State)
    requires Reachable(st)
    ensures !st.panicked
    ensures forall p | p in st.chans :: |st.chans[p].sends| + st.chans[p].closes <= 1
    ensures forall t | t in st.threads && st.threads[t].pc.DSend? :: Can(st, t, Resolve(Send))
    ensures forall t | t in st.threads && st.threads[t].pc.DSend? :: !Do(st, t, Resolve(Send)).panicked
  {
    ReachableInv(st);
    forall p | p in st.chans ensures |st.chans[p].sends| + st.chans[p].closes <= 1 {
      assert ChanOk(st, p);
    }
    forall t | t in st.threads && st.threads[t].pc.DSend?
      ensures Can(st, t, Resolve(Send)) && !Do(st, t, Resolve(Send)).panicked
    {
      SenderCanSend(st, t);
    }
  }

  lemma SenderCanSend(st: State, t: Tid)
    requires Inv(st) && t in st.threads && st.threads[t].pc.DSend?
    ensures Can(st, t, Resolve(Send)) && !Do(st, t, Resolve(Send)).panicked
  {
    OwnShare(st, t);
    assert ChanOk(st, st.threads[t].pc.ch);
  }

  // ------------------------------------------------------------- matching

  /** What a bridged player and its data connection have in common. */
  ghost predicate WellMatched(st: State, p: Tid, d: Tid) {
    && IsPlayer(st, p) && IsData(st, d) && Matched(st.threads[p].pc) && st.threads[p].pc.s in st.sess
    && var s := st.sess[st.threads[p].pc.s];
       && st.threads[d].role.cid == st.threads[p].pc.c
       && st.threads[d].role.token == s.token
       && st.route(st.threads[p].role.input) == Some(s.sub)
  }

  /** A bridged pair shares its conn_id, the data connection presented the token
      of the session the player was routed to, and that session carries the
      subdomain found in the player's handshake. */
  lemma BridgedPairsMatch(st: State, p: Tid)
    requires Reachable(st) && p in st.threads && Matched(st.threads[p].pc)
    ensures WellMatched(st, p, st.threads[p].pc.d)
  {
    ReachableInv(st);
    OwnShare(st, p);
  }

  /** Over the whole run a data connection is delivered to at most one player,
      and a player is delivered at most one data connection. */
  lemma DeliveryIsInjective(st: State, p: Tid, q: Tid, d: Tid, e: Tid)
    requires Reachable(st) && p in st.chans && q in st.chans
    requires d in st.chans[p].sends && e in st.chans[q].sends
    ensures p == q <==> d == e
    ensures d in st.threads && (st.threads[d].pc.DUnlock? || st.threads[d].pc.DEnd?)
         && st.threads[d].pc.out == Delivered(p)
  {
    ReachableInv(st);
    assert ChanOk(st, p) && ChanOk(st, q);
  }

  // ---------------------------------------------------------- conservation

  /** Where a data connection is. */
  datatype Place = WithHandler | Shut | Buffered(p: Tid) | WithPlayer(p: Tid)

  predicate At(st: State, d: Tid, where: Place)
    requires d in st.threads
  {
    match where
    case WithHandler => HoldsConn(st.threads[d].pc)
    case Shut => d in st.closedConns
    case Buffered(p) => p in st.threads && p in st.chans && d in st.chans[p].sends && !st.chans[p].taken
    case WithPlayer(p) => p in st.threads && Matched(st.threads[p].pc) && st.threads[p].pc.d == d
  }

  /** Every data connection is in exactly one place. */
  lemma ConnIsInOnePlace(st: State, d: Tid)
    requires Reachable(st) && IsData(st, d)
    ensures exists where :: At(st, d, where)
    ensures forall x, y | At(st, d, x) && At(st, d, y) :: x == y
  {
    ReachableInv(st);
    PlaceIsPossible(st, d);
    forall x | At(st, d, x) ensures x == PlaceOf(st, d) {
      PlaceIsOnly(st, d, x);
    }
  }

  function PlaceOf(st: State, d: Tid): Place
    requires d in st.threads
  {
    var pc := st.threads[d].pc;
    if HoldsConn(pc) then WithHandler
    else if d in st.closedConns then Shut
    else if !HandedOver(pc) || pc.out.p !in st.chans then Shut
    else if st.chans[pc.out.p].taken then WithPlayer(pc.out.p)
    else Buffered(pc.out.p)
  }

  lemma PlaceIsPossible(st: State, d: Tid)
    requires Inv(st) && IsData(st, d)
    ensures At(st, d, PlaceOf(st, d))
  {
    OwnShare(st, d);
    if HandedOver(st.threads[d].pc) { assert ChanOk(st, st.threads[d].pc.out.p); }
  }

  lemma PlaceIsOnly(st: State, d: Tid, x: Place)
    requires Inv(st) && IsData(st, d) && At(st, d, x)
    ensures x == PlaceOf(st, d)
  {
    OwnShare(st, d);
    if x.Buffered? { BufferedIsOnly(st, d, x.p); }
    else if x.WithPlayer? { PlayerIsOnly(st, d, x.p); }
  }

  lemma BufferedIsOnly(st: State, d: Tid, p: Tid)
    requires Inv(st) && IsData(st, d) && At(st, d, Buffered(p))
    ensures PlaceOf(st, d) == Buffered(p)
  {
    OwnShare(st, d);
    assert ChanOk(st, p);
  }

  lemma PlayerIsOnly(st: State, d: Tid, p: Tid)
    requires Inv(st) && IsData(st, d) && At(st, d, WithPlayer(p))
    ensures PlaceOf(st, d) == WithPlayer(p)
  {
    OwnShare(st, p);
    assert ChanOk(st, p);
    HandedTo(st, d, p);
  }

  /** What a player holds was handed over on its channel. */
  lemma HandedTo(st: State, d: Tid, p: Tid)
    requires IsData(st, d) && ChanOk(st, p) && ThreadOk(st, d) && At(st, d, WithPlayer(p))
    ensures PlaceOf(st, d) == WithPlayer(p)
  {
  }

  /** A delivered connection that no select will receive: its player took the
      timeout branch, and the entry had been removed by the handler before the
      player's own deletion ran. */
  lemma StrandedOnlyByLateTimeout(st: State, d: Tid, p: Tid)
    requires Reachable(st) && IsData(st, d) && At(st, d, Buffered(p)) && !st.threads[p].pc.PWait?
    ensures !InMap(st, p) && TimedOutTooLate(st.threads[p].pc)
  {
    ReachableInv(st);
    BufferedUnread(st, p);
  }

  predicate TimedOutTooLate(pc: Pc) {
    pc.PExpire? || pc.PDelete? || (GaveUp(pc) && !pc.why.removedOwn)
  }

  lemma BufferedUnread(st: State, p: Tid)
    requires Inv(st) && p in st.chans && p in st.threads && st.chans[p].sends != [] && !st.chans[p].taken
    requires !st.threads[p].pc.PWait?
    ensures !InMap(st, p) && TimedOutTooLate(st.threads[p].pc)
  {
    OwnShare(st, p);
    assert InMap(st, p) ==> EntryOk(st, st.chans[p].sess, st.chans[p].cid);
  }

  /** A waiter that returned left no entry behind, even if conn_ids collide. */
  lemma ReturnedWaiterHasNoEntry(st: State, p: Tid, s: Tid, c: ConnId)
    requires Reachable(st) && IsPlayer(st, p) && st.threads[p].pc.PEnd?
    requires s in st.sess && c in st.sess[s].pending
    ensures st.sess[s].pending[c] != p
  {
    ReachableInv(st);
    EntryOwnerWaits(st, s, c);
  }

  lemma EntryOwnerWaits(st: State, s: Tid, c: ConnId)
    requires Inv(st) && s in st.sess && c in st.sess[s].pending
    ensures st.sess[s].pending[c] in st.threads && Waiting(st.threads[st.sess[s].pending[c]].pc)
  {
    var p := st.sess[s].pending[c];
    assert EntryOk(st, s, c);
    assert ChanOk(st, p);
    assert InMap(st, p);
    OwnShare(st, p);
  }

  /** A handler took the entry of `p` and has yet to send. */
  ghost predicate InFlight(st: State, p: Tid) {
    p in st.chans && exists d :: d in st.threads && st.threads[d].pc == DSend(st.chans[p].sess, p)
  }

  /** While conn_ids are not reused in a session, the chance of a waiter is never
      lost: it is registered, or about to be sent to, or its channel saw its one
      event, and only one of the three. */
  lemma DistinctIdsLoseNothing(st: State, p: Tid)
    requires Reachable(st) && Distinct(st) && p in st.threads && Waiting(st.threads[p].pc)
    ensures p in st.chans
    ensures |st.chans[p].sends| + st.chans[p].closes + (if InMap(st, p) then 1 else 0)
          + (if InFlight(st, p) then 1 else 0) == 1
  {
    ReachableInv(st);
    OwnShare(st, p);
    WaiterAccounts(st, p);
  }

  lemma WaiterAccounts(st: State, p: Tid)
    requires Inv(st) && p in st.chans && p in st.threads && Waiting(st.threads[p].pc) && Registrable(st, p)
    ensures |st.chans[p].sends| + st.chans[p].closes + (if InMap(st, p) then 1 else 0)
          + (if InFlight(st, p) then 1 else 0) == 1
  {
    var ch := st.chans[p];
    assert ChanOk(st, p);
    assert InMap(st, p) ==> EntryOk(st, ch.sess, ch.cid);
    FlightHasSender(st, p);
  }

  lemma FlightHasSender(st: State, p: Tid)
    requires ThreadsOk(st) && ChanOk(st, p)
    ensures InFlight(st, p) <==> st.chans[p].sender.Some? && st.chans[p].sends == []
  {
    if d :| d in st.threads && st.threads[d].pc == DSend(st.chans[p].sess, p) { assert ThreadOk(st, d); }
  }

  /** ... and the deletion after a timeout can only remove the waiter's own entry. */
  lemma DistinctIdsDeleteOwn(st: State, p: Tid)
    requires Reachable(st) && Distinct(st) && p in st.threads && st.threads[p].pc.PDelete?
    ensures var pc := st.threads[p].pc;
            pc.s in st.sess && (pc.c in st.sess[pc.s].pending ==> st.sess[pc.s].pending[pc.c] == p)
  {
    ReachableInv(st);
    OwnShare(st, p);
    var pc := st.threads[p].pc;
    if pc.c in st.sess[pc.s].pending {
      assert EntryOk(st, pc.s, pc.c);
      assert SameKey(st.chans[st.sess[pc.s].pending[pc.c]], st.chans[p]);
    }
  }

  /** No other entry than that of `p` is under the conn_id of its wait. */
  predicate HasOwnId(st: State, p: Tid)
    requires p in st.threads && HasSession(st.threads[p].pc) && !st.threads[p].pc.PNotify?
  {
    var pc := st.threads[p].pc;
    pc.s in st.sess && pc.c in st.sess[pc.s].pending ==> st.sess[pc.s].pending[pc.c] == p
  }

  predicate OthersStay(st: State, p: Tid, st': State) {
    forall q | q in st.chans && q != p && InMap(st, q) :: InMap(st', q)
  }

  lemma DeleteSpares(st: State, p: Tid, q: Tid)
    requires CanSelect(st, p, Delete) && HasOwnId(st, p) && q != p && InMap(st, q)
    ensures InMap(DoSelect(st, p, Delete), q)
  {
  }

  lemma DeleteHits(st: State, p: Tid)
    requires CanSelect(st, p, Delete) && !HasOwnId(st, p) && EntryOk(st, st.threads[p].pc.s, st.threads[p].pc.c)
    ensures !OthersStay(st, p, DoSelect(st, p, Delete))
  {
    var q := st.sess[st.threads[p].pc.s].pending[st.threads[p].pc.c];
    assert InMap(st, q) && !InMap(DoSelect(st, p, Delete), q);
  }

  lemma DeleteSparesIff(st: State, p: Tid)
    requires CanSelect(st, p, Delete) && EntriesOk(st)
    ensures OthersStay(st, p, DoSelect(st, p, Delete)) <==> HasOwnId(st, p)
  {
    if HasOwnId(st, p) {
      forall q | q in st.chans && q != p && InMap(st, q) ensures InMap(DoSelect(st, p, Delete), q) {
        DeleteSpares(st, p, q);
      }
    } else {
      DeleteHits(st, p);
    }
  }

  /** The deletion after a timeout leaves all other waiters registered if and only
      if none of them has the conn_id of the one that timed out. */
  lemma TimeoutSparesOthersIff(st: State, p: Tid)
    requires Reachable(st) && IsPlayer(st, p) && st.threads[p].pc.PDelete?
    ensures Can(st, p, Select(Delete))
    ensures OthersStay(st, p, Do(st, p, Select(Delete))) <==> HasOwnId(st, p)
  {
    ReachableInv(st);
    OwnShare(st, p);
    DeleteSparesIff(st, p);
  }

  // ------------------------------------------------------------- sessions

  /** Each key is the UserID of its session, no session sits under two keys, a
      session is closed at most once, and for everyone who holds the manager's
      lock for reading a session is mapped exactly while it is not closed. */
  lemma SessionLifecycle(st: State, s: Tid)
    requires Reachable(st) && s in st.sess
    ensures forall u | u in st.sessions :: st.sessions[u] in st.sess && st.sess[st.sessions[u]].user == u
    ensures forall u, v | u in st.sessions && v in st.sessions && st.sessions[u] == st.sessions[v] :: u == v
    ensures st.sess[s].closes <= 1
    ensures !Leaving(st, s) ==> (Mapped(st, s) <==> st.sess[s].closes == 0)
    ensures Leaving(st, s) ==> Mapped(st, s) && st.sess[s].closes == 1 && st.readers == {}
  {
    ReachableInv(st);
    forall u | u in st.sessions ensures st.sessions[u] in st.sess && st.sess[st.sessions[u]].user == u {
      assert MapOk(st, u);
    }
    assert SessOk(st, s);
    if Leaving(st, s) { assert LockOk(st, st.writer.value); }
  }

  /** What a waiter registered before the close sees after it. */
  lemma CloseWakesWaiters(st: State, t: Tid, c: ConnId)
    requires Reachable(st) && Can(st, t, Close(CloseAll))
    requires c in st.sess[st.threads[t].pc.s].pending
    requires var p := st.sess[st.threads[t].pc.s].pending[c]; p in st.threads && st.threads[p].pc.PWait?
    ensures var p := st.sess[st.threads[t].pc.s].pending[c];
            var st' := Do(st, t, Close(CloseAll));
            Can(st', p, Select(Receive)) && Do(st', p, Select(Receive)).threads[p].pc == PEnd(SessionClosed)
  {
    ReachableInv(st);
    var s := st.threads[t].pc.s;
    assert EntryOk(st, s, c);
    var p := st.sess[s].pending[c];
    assert ChanOk(st, p);
    OwnShare(st, p);
    assert p in st.sess[s].pending.Values;
  }

  /** A waiter that registered on a session already closed can only time out:
      nothing ever happens on its channel. */
  lemma LateWaiterTimesOut(st: State, p: Tid, a: Action)
    requires Reachable(st) && p in st.chans && st.chans[p].late
    ensures st.chans[p].sends == [] && st.chans[p].closes == 0
    ensures p in st.threads
    ensures st.threads[p].pc.PWait? && Can(st, p, a) ==> a == Select(Timeout)
    ensures st.threads[p].pc.PEnd? ==> st.threads[p].pc.why.TimedOut?
  {
    ReachableInv(st);
    LateIsQuiet(st, p);
    if st.threads[p].pc.PWait? && Can(st, p, a) { WaiterSteps(st, p, a); }
  }

  lemma LateIsQuiet(st: State, p: Tid)
    requires Inv(st) && p in st.chans && st.chans[p].late
    ensures IsPlayer(st, p) && Quiet(st.chans[p])
    ensures st.threads[p].pc.PEnd? ==> st.threads[p].pc.why.TimedOut?
  {
    assert ChanOk(st, p);
    OwnShare(st, p);
  }

  lemma WaiterSteps(st: State, p: Tid, a: Action)
    requires IsPlayer(st, p) && st.threads[p].pc.PWait? && Can(st, p, a)
    ensures a == Select(Receive) || a == Select(Timeout)
  {
  }

  /** The loop of control thread `t` removes by UserID: the session it is about
      to close is its own exactly when its own was not closed before. After a
      kick it is a newer session of the same user, if there is one. */
  lemma RemovalHitsOwnUnlessKicked(st: State, t: Tid)
    requires Reachable(st) && IsControl(st, t) && st.threads[t].pc == CHeld(Remove)
    ensures t in st.sess
    ensures var st' := Do(st, t, Manage(Pick));
            && (st'.threads[t].pc == CClose(Remove, t) <==> st.sess[t].closes == 0)
            && (st.sess[t].closes > 0 && st.threads[t].role.user in st.sessions ==>
                  exists s :: s != t && st'.threads[t].pc == CClose(Remove, s)
                           && s in st.sess && st.sess[s].closes == 0)
  {
    ReachableInv(st);
    OwnShare(st, t);
    assert SessOk(st, t) && LockOk(st, t);
    var u := st.threads[t].role.user;
    if u in st.sessions {
      assert MapOk(st, u) && SessOk(st, st.sessions[u]);
    }
  }

  // ------------------------------------------------------------- deadlock

  /** Threads at a lock operation. */
  predicate WantsLock(pc: Pc) {
    || pc.PLookup? || pc.DLock? || pc.SIdle?
    || pc.CAnnounce? || pc.CDrain?
    || pc.PRegister? || pc.PExpire? || pc.DCheck? || pc.DResolve? || pc.CClose? || pc.SLock?
  }

  /** Threads in possession of a lock; an announced writer holds the writers'
      queue of the RWMutex. */
  predicate HoldsLock(pc: Pc) {
    HoldsRead(pc) || HoldsWrite(pc) || pc.CDrain? || HoldsMu(pc).Some?
  }

  ghost predicate Runs(st: State, t: Tid) {
    t in st.threads && exists a :: Can(st, t, a)
  }

  lemma PlayerHolderRuns(st: State, h: Tid)
    requires IsPlayer(st, h) && HoldsMu(st.threads[h].pc).Some? && st.threads[h].pc.s in st.sess
    requires PlayerPc(st.threads[h].pc)
    ensures Runs(st, h)
  {
    if st.threads[h].pc.PInsert? { assert Can(st, h, Register(Insert)); } else { assert Can(st, h, Select(Delete)); }
  }

  lemma DataHolderRuns(st: State, h: Tid)
    requires IsData(st, h) && HoldsMu(st.threads[h].pc).Some? && st.threads[h].pc.s in st.sess
    requires DataPc(st.threads[h].pc)
    ensures Runs(st, h)
  {
    if st.threads[h].pc.DLook? { assert Can(st, h, LookUp(Look)); } else { assert Can(st, h, Resolve(Take)); }
  }

  lemma ControlHolderRuns(st: State, h: Tid)
    requires IsControl(st, h) && HoldsMu(st.threads[h].pc).Some? && st.threads[h].pc.s in st.sess
    requires ControlPc(st.threads[h].pc)
    ensures Runs(st, h)
  {
    assert Can(st, h, Close(CloseAll));
  }

  lemma StatsHolderRuns(st: State, h: Tid)
    requires IsStats(st, h) && HoldsMu(st.threads[h].pc).Some?
    requires StatsOk(st, st.threads[h].pc)
    ensures Runs(st, h)
  {
    assert Can(st, h, Stat(Sample));
  }

  /** Session.mu is never held while waiting for a lock. */
  lemma MutexHolderRuns(st: State, s: Tid)
    requires Inv(st) && s in st.mus
    ensures Runs(st, st.mus[s]) && HoldsMu(st.threads[st.mus[s]].pc) == Some(s)
    ensures !WantsLock(st.threads[st.mus[s]].pc)
  {
    assert MuOk(st, s);
    OwnShare(st, st.mus[s]);
    HolderRuns(st, st.mus[s], s);
  }

  lemma HolderRuns(st: State, h: Tid, s: Tid)
    requires ThreadOk(st, h) && HoldsMu(st.threads[h].pc) == Some(s) && s in st.sess
    ensures Runs(st, h)
  {
    match st.threads[h].role {
      case Player(_, _) => PlayerHolderRuns(st, h);
      case Data(_, _) => DataHolderRuns(st, h);
      case Control(_, _, _) => ControlHolderRuns(st, h);
      case Stats => StatsHolderRuns(st, h);
    }
  }

  lemma SomeHolderRunsForMutex(st: State, t: Tid, s: Tid, a: Action)
    requires Inv(st) && t in st.threads && s in st.sess
    requires HoldsLock(st.threads[t].pc) && (Free(st, s) ==> Can(st, t, a))
    ensures exists h :: Runs(st, h) && HoldsLock(st.threads[h].pc)
  {
    if Free(st, s) { assert Runs(st, t); } else { MutexHolderRuns(st, s); }
  }

  lemma PlayerReaderRuns(st: State, r: Tid)
    requires Inv(st) && r in st.threads && st.threads[r].pc.PScan?
    ensures Runs(st, r)
  {
    OwnShare(st, r);
    var sub := st.threads[r].role.sub;
    if s :| s in st.sessions.Values && s in st.sess && sub == Some(st.sess[s].sub) {
      assert Can(st, r, Route(Find(s)));
    } else {
      assert Can(st, r, Route(NoSession));
    }
  }

  lemma ScannerRuns(st: State, r: Tid)
    requires IsData(st, r) && st.threads[r].pc.DScan?
    ensures Runs(st, r)
  {
    var pc := st.threads[r].pc;
    if pc.todo == {} {
      assert Can(st, r, Scan(NoneLeft));
    } else {
      var s := AnyOf(pc.todo);
      assert Can(st, r, Scan(VisitNext(s)));
    }
  }

  lemma DataReaderRuns(st: State, r: Tid)
    requires Inv(st) && IsData(st, r) && HoldsRead(st.threads[r].pc) && HoldsMu(st.threads[r].pc) == None
    ensures exists h :: Runs(st, h) && HoldsLock(st.threads[h].pc)
  {
    OwnShare(st, r);
    MappedExist(st);
    var pc := st.threads[r].pc;
    if pc.DScan? { ScannerRuns(st, r); }
    else if pc.DCheck? { SomeHolderRunsForMutex(st, r, pc.s, LookUp(LockToLook)); }
    else if pc.DResolve? { SomeHolderRunsForMutex(st, r, pc.s, Resolve(LockToTake)); }
    else if pc.DSend? { SenderCanSend(st, r); assert Runs(st, r); }
    else { assert Can(st, r, Scan(DataRUnlock)); assert Runs(st, r); }
  }

  /** A reader of SessionManager.mu runs, or waits for a session mutex whose
      holder runs. */
  lemma ReaderMakesProgress(st: State, r: Tid)
    requires Inv(st) && r in st.threads && HoldsRead(st.threads[r].pc)
    ensures exists h :: Runs(st, h) && HoldsLock(st.threads[h].pc)
  {
    var pc := st.threads[r].pc;
    if HoldsMu(pc).Some? {
      assert LockOk(st, r);
      MutexHolderRuns(st, HoldsMu(pc).value);
    } else {
      ReaderRole(st, r);
      if pc.PScan? { PlayerReaderRuns(st, r); }
      else if IsData(st, r) { DataReaderRuns(st, r); }
      else { StatsReaderRuns(st, r); }
    }
  }

  lemma ReaderRole(st: State, r: Tid)
    requires ThreadsOk(st) && r in st.threads && HoldsRead(st.threads[r].pc) && HoldsMu(st.threads[r].pc) == None
    ensures st.threads[r].pc.PScan? || IsData(st, r)
         || (IsStats(st, r) && (st.threads[r].pc.SScan? || st.threads[r].pc.SLock?))
  {
    assert ThreadOk(st, r);
  }

  lemma StatsScannerRuns(st: State, r: Tid)
    requires IsStats(st, r) && st.threads[r].pc.SScan?
    ensures Runs(st, r)
  {
    var pc := st.threads[r].pc;
    if pc.todo == {} {
      assert Can(st, r, Stat(StatsRUnlock));
    } else {
      var s := AnyOf(pc.todo);
      assert Can(st, r, Stat(Visit(s)));
    }
  }

  lemma StatsReaderRuns(st: State, r: Tid)
    requires Inv(st) && IsStats(st, r) && (st.threads[r].pc.SScan? || st.threads[r].pc.SLock?)
    ensures exists h :: Runs(st, h) && HoldsLock(st.threads[h].pc)
  {
    if st.threads[r].pc.SScan? {
      StatsScannerRuns(st, r);
    } else {
      OwnShare(st, r);
      SomeHolderRunsForMutex(st, r, st.threads[r].pc.s, Stat(LockToSample));
    }
  }

  /** An announced writer goes on when the readers have left. */
  lemma DrainMakesProgress(st: State, w: Tid)
    requires Inv(st) && IsControl(st, w) && st.threads[w].pc.CDrain?
    ensures exists h :: Runs(st, h) && HoldsLock(st.threads[h].pc)
  {
    if st.readers == {} {
      assert Can(st, w, Manage(Acquire));
      assert Runs(st, w);
    } else {
      var r := AnyOf(st.readers);
      assert LockOk(st, r);
      ReaderMakesProgress(st, r);
    }
  }

  lemma CloserMakesProgress(st: State, w: Tid)
    requires Inv(st) && IsControl(st, w) && st.threads[w].pc.CClose?
    ensures exists h :: Runs(st, h) && HoldsLock(st.threads[h].pc)
  {
    OwnShare(st, w);
    assert MapOk(st, st.threads[w].role.user);
    SomeHolderRunsForMutex(st, w, st.threads[w].pc.s, Close(LockToClose));
  }

  lemma WriterMakesProgress(st: State, w: Tid)
    requires Inv(st) && st.writer == Some(w)
    ensures exists h :: Runs(st, h) && HoldsLock(st.threads[h].pc)
  {
    assert LockOk(st, w);
    OwnShare(st, w);
    var pc := st.threads[w].pc;
    if pc.CDrain? { DrainMakesProgress(st, w); }
    else if pc.CHeld? { assert Can(st, w, Manage(Pick)); assert Runs(st, w); }
    else if pc.CClose? { CloserMakesProgress(st, w); }
    else if pc.CClosing? { MutexHolderRuns(st, pc.s); }
    else { assert Can(st, w, Manage(Swap)); assert Runs(st, w); }
  }

  /** Whenever a thread is blocked at a lock, some other thread that holds a
      lock can take a step. */
  lemma DeadlockFree(st: State, t: Tid)
    requires Reachable(st) && t in st.threads && WantsLock(st.threads[t].pc) && !Runs(st, t)
    ensures exists h :: h != t && Runs(st, h) && HoldsLock(st.threads[h].pc)
  {
    ReachableInv(st);
    BlockedThreadWaits(st, t);
  }

  lemma BlockedThreadWaits(st: State, t: Tid)
    requires Inv(st) && t in st.threads && WantsLock(st.threads[t].pc) && !Runs(st, t)
    ensures exists h :: h != t && Runs(st, h) && HoldsLock(st.threads[h].pc)
  {
    MappedExist(st);
    var pc := st.threads[t].pc;
    if WantsMutex(pc) {
      if pc.s !in st.mus { BlockedOnMutex(st, t); }
      MutexHolderRuns(st, pc.s);
    } else {
      BlockedOnManager(st, t);
      if pc.CDrain? { assert LockOk(st, t); }
      WriterMakesProgress(st, st.writer.value);
    }
  }

  predicate Ended(pc: Pc) {
    pc.PEnd? || pc.DEnd? || pc.CEnd?
  }

  lemma PlayerGoesOn(st: State, t: Tid)
    requires IsPlayer(st, t) && PlayerPc(st.threads[t].pc) && !st.threads[t].pc.PScan?
    requires HoldsMu(st.threads[t].pc) == None && !WantsLock(st.threads[t].pc) && !Ended(st.threads[t].pc)
    ensures Runs(st, t)
  {
    var pc := st.threads[t].pc;
    if pc.PNotify? { assert Can(st, t, Route(NotifyFails)); }
    else if pc.PWait? { assert Can(st, t, Select(Timeout)); }
    else if pc.PReplay? { assert Can(st, t, Bridge(Replay(true))); }
    else { assert Can(st, t, Bridge(Finish)); }
  }

  lemma DataGoesOn(st: State, t: Tid)
    requires Inv(st) && IsData(st, t) && HoldsMu(st.threads[t].pc) == None
    requires !WantsLock(st.threads[t].pc) && !Ended(st.threads[t].pc)
    ensures Runs(st, t)
  {
    OwnShare(st, t);
    var pc := st.threads[t].pc;
    if pc.DScan? { ScannerRuns(st, t); }
    else if pc.DSend? { SenderCanSend(st, t); }
    else if pc.DUnlock? { assert Can(st, t, Scan(DataRUnlock)); }
    else { assert Can(st, t, Scan(CloseMissed)); }
  }

  lemma ControlGoesOn(st: State, t: Tid)
    requires IsControl(st, t) && ControlPc(st.threads[t].pc) && HoldsMu(st.threads[t].pc) == None
    requires !WantsLock(st.threads[t].pc) && !Ended(st.threads[t].pc)
    ensures Runs(st, t)
  {
    var pc := st.threads[t].pc;
    if pc.CHeld? { assert Can(st, t, Manage(Pick)); }
    else if pc.CSwap? { assert Can(st, t, Manage(Swap)); }
    else { assert Can(st, t, Manage(Exit)); }
  }

  lemma StatsGoesOn(st: State, t: Tid)
    requires IsStats(st, t) && StatsOk(st, st.threads[t].pc) && HoldsMu(st.threads[t].pc) == None
    requires !WantsLock(st.threads[t].pc)
    ensures Runs(st, t)
  {
    StatsScannerRuns(st, t);
  }

  /** A thread that has not ended is stopped by nothing but a lock that is taken. */
  lemma OnlyLocksBlock(st: State, t: Tid)
    requires Reachable(st) && t in st.threads && !Ended(st.threads[t].pc) && !WantsLock(st.threads[t].pc)
    ensures Runs(st, t)
  {
    ReachableInv(st);
    OwnShare(st, t);
    if HoldsMu(st.threads[t].pc).Some? {
      HolderGoesOn(st, t);
    } else if st.threads[t].pc.PScan? {
      PlayerReaderRuns(st, t);
    } else {
      match st.threads[t].role {
        case Player(_, _) => PlayerGoesOn(st, t);
        case Data(_, _) => DataGoesOn(st, t);
        case Control(_, _, _) => ControlGoesOn(st, t);
        case Stats => StatsGoesOn(st, t);
      }
    }
  }

  lemma HolderGoesOn(st: State, t: Tid)
    requires Inv(st) && t in st.threads && HoldsMu(st.threads[t].pc).Some?
    ensures Runs(st, t)
  {
    assert LockOk(st, t);
    MutexHolderRuns(st, HoldsMu(st.threads[t].pc).value);
  }

  lemma BlockedOnManager(st: State, t: Tid)
    requires ThreadOk(st, t) && WantsLock(st.threads[t].pc) && !WantsMutex(st.threads[t].pc) && !Runs(st, t)
    ensures !st.threads[t].pc.CDrain? ==> st.writer.Some?
  {
    var pc := st.threads[t].pc;
    if pc.PLookup? { assert !Can(st, t, Route(PlayerRLock)); }
    else if pc.DLock? { assert !Can(st, t, Scan(DataRLock)); }
    else if pc.SIdle? { assert !Can(st, t, Stat(StatsRLock)); }
    else if pc.CAnnounce? { assert !Can(st, t, Manage(Announce)); }
  }

  predicate WantsMutex(pc: Pc) {
    pc.PRegister? || pc.PExpire? || pc.DCheck? || pc.DResolve? || pc.CClose? || pc.SLock?
  }

  lemma BlockedOnMutex(st: State, t: Tid)
    requires ThreadOk(st, t) && st.sessions.Values <= st.sess.Keys && WantsMutex(st.threads[t].pc)
    requires st.threads[t].pc.s !in st.mus
    ensures Runs(st, t)
  {
    var pc := st.threads[t].pc;
    if pc.PRegister? { assert Can(st, t, Register(LockToAdd)); }
    else if pc.PExpire? { assert Can(st, t, Select(LockToDelete)); }
    else if pc.DCheck? { assert Can(st, t, LookUp(LockToLook)); }
    else if pc.DResolve? { assert Can(st, t, Resolve(LockToTake)); }
    else if pc.CClose? { assert Can(st, t, Close(LockToClose)); }
    else { assert Can(st, t, Stat(LockToSample)); }
  }

  /** Own steps a lock holder has left before it holds no lock. */
  function StepsLeft(pc: Pc): nat {
    if pc.PScan? || pc.PInsert? || pc.PDelete? || pc.DUnlock? then 1
    else if pc.DSend? || pc.CSwap? then 2
    else if pc.DTake? || pc.CClosing? then 3
    else if pc.DResolve? || pc.CClose? then 4
    else if pc.CHeld? then 5
    else if pc.CDrain? then 6
    else if pc.DScan? || pc.SScan? then 7 + 3 * |pc.todo|
    else if pc.DLook? || pc.SSample? then 8 + 3 * |pc.todo|
    else if pc.DCheck? || pc.SLock? then 9 + 3 * |pc.todo|
    else 0
  }

  predicate Descends(st: State, t: Tid, st': State)
    requires t in st.threads
  {
    t in st'.threads && (HoldsLock(st'.threads[t].pc) ==> StepsLeft(st'.threads[t].pc) < StepsLeft(st.threads[t].pc))
  }

  lemma RouteDescends(st: State, t: Tid, a: RouteStep)
    requires CanRoute(st, t, a) && HoldsLock(st.threads[t].pc)
    ensures Descends(st, t, DoRoute(st, t, a))
  {
  }

  lemma WaitDescends(st: State, t: Tid, a: SelectStep)
    requires CanSelect(st, t, a) && HoldsLock(st.threads[t].pc)
    ensures Descends(st, t, DoSelect(st, t, a))
  {
    DeleteReleases(st, t);
  }

  lemma DeleteReleases(st: State, t: Tid)
    requires t in st.threads
    ensures CanSelect(st, t, Delete) ==> !HoldsLock(DoSelect(st, t, Delete).threads[t].pc)
  {
  }

  lemma RegisterDescends(st: State, t: Tid, a: RegisterStep)
    requires CanRegister(st, t, a) && HoldsLock(st.threads[t].pc)
    ensures Descends(st, t, DoRegister(st, t, a))
  {
  }

  lemma BridgeDescends(st: State, t: Tid, a: BridgeStep)
    requires CanBridge(st, t, a)
    ensures Descends(st, t, DoBridge(st, t, a))
  {
  }

  lemma ScanDescends(st: State, t: Tid, a: ScanStep)
    requires CanScan(st, t, a) && HoldsLock(st.threads[t].pc)
    ensures Descends(st, t, DoScan(st, t, a))
  {
    if a.VisitNext? { assert |st.threads[t].pc.todo - {a.s}| == |st.threads[t].pc.todo| - 1; }
  }

  lemma LookDescends(st: State, t: Tid, a: LookStep)
    requires CanLook(st, t, a) && HoldsLock(st.threads[t].pc)
    ensures Descends(st, t, DoLook(st, t, a))
  {
  }

  lemma ResolveDescends(st: State, t: Tid, a: ResolveStep)
    requires CanResolve(st, t, a) && (a.Send? ==> !DoResolve(st, t, a).panicked)
    ensures Descends(st, t, DoResolve(st, t, a))
  {
  }

  lemma CreateReleases(st: State, t: Tid)
    requires IsControl(st, t)
    ensures t in DoCreate(st, t).threads && DoCreate(st, t).threads[t].pc == CRun
  {
  }

  lemma RemoveReleases(st: State, t: Tid)
    requires IsControl(st, t)
    ensures t in DoRemove(st, t).threads && DoRemove(st, t).threads[t].pc == CEnd
  {
  }

  lemma SwapDescends(st: State, t: Tid)
    requires CanManage(st, t, Swap)
    ensures Descends(st, t, DoManage(st, t, Swap))
  {
    CreateReleases(st, t);
    RemoveReleases(st, t);
  }

  lemma ManageDescends(st: State, t: Tid, a: ManageStep)
    requires CanManage(st, t, a) && HoldsLock(st.threads[t].pc) && !a.Swap?
    ensures Descends(st, t, DoManage(st, t, a))
  {
  }

  lemma CloseDescends(st: State, t: Tid, a: CloseStep)
    requires CanClose(st, t, a)
    ensures Descends(st, t, DoClose(st, t, a))
  {
  }

  lemma SampleDescends(st: State, t: Tid, a: SampleStep)
    requires CanSample(st, t, a) && HoldsLock(st.threads[t].pc)
    ensures Descends(st, t, DoSample(st, t, a))
  {
    if a.Visit? { assert |st.threads[t].pc.todo - {a.s}| == |st.threads[t].pc.todo| - 1; }
  }

  /** No thread stays in a critical section for ever: every step it takes while
      it holds a lock brings the release closer. */
  lemma CriticalSectionsEnd(st: State, t: Tid, a: Action)
    requires Reachable(st) && t in st.threads && HoldsLock(st.threads[t].pc) && Can(st, t, a)
    ensures Descends(st, t, Do(st, t, a))
  {
    ReachableInv(st);
    StepDescends(st, t, a);
  }

  lemma StepDescends(st: State, t: Tid, a: Action)
    requires Inv(st) && t in st.threads && HoldsLock(st.threads[t].pc) && Can(st, t, a)
    ensures Descends(st, t, Do(st, t, a))
  {
    match a {
      case Spawn(_) =>
      case Route(x) => RouteDescends(st, t, x);
      case Register(x) => RegisterDescends(st, t, x);
      case Select(x) => WaitDescends(st, t, x);
      case Bridge(x) => BridgeDescends(st, t, x);
      case Scan(x) => ScanDescends(st, t, x);
      case LookUp(x) => LookDescends(st, t, x);
      case Resolve(x) =>
        if x.Send? { SenderCanSend(st, t); }
        ResolveDescends(st, t, x);
      case Manage(x) => if x.Swap? { SwapDescends(st, t); } else { ManageDescends(st, t, x); }
      case Close(x) => CloseDescends(st, t, x);
      case Stat(x) => SampleDescends(st, t, x);
    }
  }
}
