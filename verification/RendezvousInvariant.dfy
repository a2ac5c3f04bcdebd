/** The inductive invariant of the rendezvous protocol, one predicate a kind of
    object, and its preservation by every step. */
module RendezvousInvariant {
  import opened Wrappers
  import opened Rendezvous

  // ------------------------------------------------- who holds which lock

  /** Threads between RLock and RUnlock of SessionManager.mu. */
  predicate HoldsRead(pc: Pc) {
    pc.PScan? || pc.DScan? || pc.DCheck? || pc.DLook? || pc.DResolve? || pc.DTake? || pc.DSend? || pc.DUnlock?
    || pc.SScan? || pc.SLock? || pc.SSample?
  }

  /** Threads between Lock and Unlock of SessionManager.mu. */
  predicate HoldsWrite(pc: Pc) {
    pc.CHeld? || pc.CClose? || pc.CClosing? || pc.CSwap?
  }

  /** The session whose mutex the thread holds. */
  function HoldsMu(pc: Pc): Option<Tid> {
    if pc.PInsert? || pc.PDelete? || pc.DLook? || pc.DTake? || pc.CClosing? || pc.SSample? then Some(pc.s)
    else None
  }

  ghost predicate LockOk(st: State, t: Tid) {
    t in st.threads &&
    var pc := st.threads[t].pc;
    && (HoldsRead(pc) <==> t in st.readers)
    && ((HoldsWrite(pc) || pc.CDrain?) <==> st.writer == Some(t))
    && (HoldsWrite(pc) ==> st.readers == {})
    && (HoldsMu(pc).Some? ==> HoldsMu(pc).value in st.mus && st.mus[HoldsMu(pc).value] == t)
  }

  ghost predicate MuOk(st: State, s: Tid) {
    s in st.mus && s in st.sess && st.mus[s] in st.threads && HoldsMu(st.threads[st.mus[s]].pc) == Some(s)
  }

  /** Locks and program counters agree. */
  ghost predicate LockInv(st: State) {
    && (st.writer.Some? ==> st.writer.value in st.threads)
    && (forall t | t in st.readers :: t in st.threads)
    && (forall t | t in st.threads :: LockOk(st, t))
    && (forall s | s in st.mus :: MuOk(st, s))
  }

  // --------------------------------------------------------- the pieces

  predicate Mapped(st: State, s: Tid) {
    s in st.sess && st.sess[s].user in st.sessions && st.sessions[st.sess[s].user] == s
  }

  /** A writer closed session `s` and has yet to take it out of the map. */
  predicate Leaving(st: State, s: Tid) {
    st.writer.Some? && st.writer.value in st.threads && st.threads[st.writer.value].pc.CSwap?
    && st.threads[st.writer.value].pc.kicked == Some(s)
  }

  predicate InMap(st: State, p: Tid) {
    p in st.chans && st.chans[p].sess in st.sess
    && st.chans[p].cid in st.sess[st.chans[p].sess].pending
    && st.sess[st.chans[p].sess].pending[st.chans[p].cid] == p
  }

  /** Nothing was ever sent on, or closed, or taken out for delivery. */
  predicate Quiet(ch: Chan) {
    ch.sender == None && ch.sends == [] && ch.closes == 0 && !ch.taken
  }

  predicate MapOk(st: State, u: string) {
    u in st.sessions && st.sessions[u] in st.sess && st.sess[st.sessions[u]].user == u
  }

  predicate SessOk(st: State, s: Tid) {
    s in st.sess && s in st.threads &&
    var x := st.sess[s];
    && st.threads[s].role == Control(x.user, x.sub, x.token)
    && x.closes <= 1
    && (if Leaving(st, s) then x.closes == 1 && Mapped(st, s) else x.closes == 0 <==> Mapped(st, s))
  }

  /** An entry of a pending map names a channel of that session and conn_id on
      which nothing has happened yet; a closed session only has late ones. */
  predicate EntryOk(st: State, s: Tid, c: ConnId) {
    s in st.sess && c in st.sess[s].pending &&
    var p := st.sess[s].pending[c];
    && p in st.chans && st.chans[p].sess == s && st.chans[p].cid == c
    && Quiet(st.chans[p])
    && (st.chans[p].late <==> st.sess[s].closes > 0)
  }

  /** In the select of WaitForDataConn or in its timeout branch. */
  predicate Waiting(pc: Pc) {
    pc.PWait? || pc.PExpire? || pc.PDelete?
  }

  /** Holding the data connection it received. */
  predicate Matched(pc: Pc) {
    pc.PReplay? || pc.PBridge?
  }

  /** Done with the data connection it received. */
  predicate Returned(pc: Pc) {
    pc == PEnd(ReplayFailed) || pc == PEnd(BridgeOver)
  }

  predicate GaveUp(pc: Pc) {
    pc.PEnd? && pc.why.TimedOut?
  }

  predicate IsSender(st: State, p: Tid, d: Tid)
  {
    d in st.threads && (st.threads[d].pc == DUnlock(Delivered(p)) || st.threads[d].pc == DEnd(Delivered(p)))
  }

  /** The handler that took the entry of `p` either is about to send or sent. */
  predicate SenderOk(st: State, p: Tid, ch: Chan, d: Tid) {
    && d in st.threads && ch.sess in st.sess
    && st.threads[d].role == Data(ch.cid, st.sess[ch.sess].token)
    && (if ch.sends == [] then st.threads[d].pc == DSend(ch.sess, p) else ch.sends == [d] && IsSender(st, p, d))
  }

  /** The history of a channel: at most one of a send and a close. */
  predicate HistoryOk(st: State, p: Tid, ch: Chan) {
    && ch.sess in st.sess
    && ch.closes <= 1
    && (ch.late ==> Quiet(ch) && st.sess[ch.sess].closes > 0)
    && (ch.closes > 0 ==> ch.sender == None && st.sess[ch.sess].closes > 0)
    && (ch.sender == None ==> ch.sends == [])
    && (ch.sender.Some? ==> SenderOk(st, p, ch, ch.sender.value))
    && (ch.taken ==> |ch.sends| == 1)
  }

  /** What the handler that made the channel is doing with it. */
  predicate OwnerOk(st: State, p: Tid, ch: Chan, pc: Pc) {
    && (ch.taken <==> Matched(pc) || Returned(pc))
    && (Waiting(pc) || Matched(pc) ==> pc.s == ch.sess && pc.c == ch.cid)
    && (Matched(pc) ==> ch.sends == [pc.d])
    && (pc == PEnd(SessionClosed) ==> ch.closes == 1)
    && (GaveUp(pc) ==> pc.why.s == ch.sess && pc.why.c == ch.cid && !InMap(st, p) && (pc.why.removedOwn ==> Quiet(ch)))
  }

  predicate ChanOk(st: State, p: Tid) {
    p in st.chans && p in st.threads && st.threads[p].role.Player?
    && HistoryOk(st, p, st.chans[p]) && OwnerOk(st, p, st.chans[p], st.threads[p].pc)
  }

  predicate HasSession(pc: Pc) {
    pc.PNotify? || pc.PRegister? || pc.PInsert? || Waiting(pc) || Matched(pc)
  }

  /** Player handlers that have registered a channel. */
  predicate HasChan(pc: Pc) {
    Waiting(pc) || Matched(pc) || (pc.PEnd? && !pc.why.Rejected? && !pc.why.NotifyFailed?)
  }

  predicate PlayerPc(pc: Pc) {
    pc.PLookup? || pc.PScan? || HasSession(pc) || pc.PEnd?
  }

  predicate PlayerOk(st: State, t: Tid, sub: Option<string>, pc: Pc) {
    && PlayerPc(pc)
    && (HasChan(pc) <==> t in st.chans)
    && (pc.PLookup? || pc.PScan? ==> sub.Some?)
    && (HasSession(pc) ==> pc.s in st.sess && sub == Some(st.sess[pc.s].sub))
  }

  /** Handlers that still hold their own, open connection. */
  predicate HoldsConn(pc: Pc) {
    pc.DLock? || pc.DScan? || pc.DCheck? || pc.DLook? || pc.DResolve? || pc.DTake? || pc.DSend?
    || pc == DUnlock(NotFound) || pc.DMiss?
  }

  predicate HandedOver(pc: Pc) {
    (pc.DUnlock? || pc.DEnd?) && pc.out.Delivered?
  }

  predicate DataPc(pc: Pc) {
    HoldsConn(pc) || pc.DUnlock? || pc.DEnd?
  }

  /** `d` was sent on the channel of `p`, and is closed exactly when the player
      handler that received it gave it up. */
  predicate ReceivedFrom(st: State, p: Tid, d: Tid) {
    p in st.chans && p in st.threads && st.chans[p].sends == [d]
    && (d in st.closedConns <==> Returned(st.threads[p].pc))
  }

  predicate DataOk(st: State, t: Tid, token: string, pc: Pc) {
    && DataPc(pc)
    && (if HandedOver(pc) then ReceivedFrom(st, pc.out.p, t) else t in st.closedConns <==> !HoldsConn(pc))
    && (pc.DScan? || pc.DCheck? || pc.DLook? ==> pc.todo <= st.sessions.Values)
    && (pc.DCheck? || pc.DLook? || pc.DResolve? || pc.DTake? || pc.DSend? ==> pc.s in st.sessions.Values)
    && (pc.DResolve? || pc.DTake? ==> pc.s in st.sess && st.sess[pc.s].token == token)
    && (pc.DSend? ==> pc.ch in st.chans && st.chans[pc.ch].sess == pc.s
                      && st.chans[pc.ch].sender == Some(t) && st.chans[pc.ch].sends == [])
  }

  predicate Creating(pc: Pc) {
    (pc.CAnnounce? || pc.CDrain? || pc.CHeld? || pc.CClose? || pc.CClosing? || pc.CSwap?) && pc.op.Create?
  }

  predicate ControlPc(pc: Pc) {
    pc.CAnnounce? || pc.CDrain? || pc.CHeld? || pc.CClose? || pc.CClosing? || pc.CSwap? || pc.CRun? || pc.CEnd?
  }

  predicate ControlOk(st: State, t: Tid, user: string, pc: Pc) {
    && ControlPc(pc)
    && (t in st.sess <==> !Creating(pc))
    && (pc.CClose? || pc.CClosing? ==> user in st.sessions && st.sessions[user] == pc.s)
    && (pc.CSwap? ==> if pc.kicked.None? then user !in st.sessions
                      else user in st.sessions && st.sessions[user] == pc.kicked.value)
  }

  predicate StatsOk(st: State, pc: Pc) {
    && (pc.SIdle? || pc.SScan? || pc.SLock? || pc.SSample?)
    && (pc.SScan? || pc.SLock? || pc.SSample? ==> pc.todo <= st.sess.Keys)
    && (pc.SLock? || pc.SSample? ==> pc.s in st.sess)
  }

  predicate ThreadOk(st: State, t: Tid) {
    t in st.threads &&
    var pc := st.threads[t].pc;
    match st.threads[t].role
    case Player(input, sub) => sub == st.route(input) && PlayerOk(st, t, sub, pc)
    case Data(_, token) => DataOk(st, t, token, pc)
    case Control(user, _, _) => ControlOk(st, t, user, pc)
    case Stats => StatsOk(st, pc)
  }

  predicate SameKey(a: Chan, b: Chan) {
    a.sess == b.sess && a.cid == b.cid
  }

  /** With conn_ids that are never reused in a session, a waiter on which
      nothing happened is still registered. */
  predicate Distinct(st: State) {
    forall p, q | p in st.chans && q in st.chans && SameKey(st.chans[p], st.chans[q]) :: p == q
  }

  predicate Registrable(st: State, p: Tid) {
    p in st.chans && p in st.threads && (Waiting(st.threads[p].pc) && Quiet(st.chans[p]) ==> InMap(st, p))
  }

  ghost predicate ThreadsOk(st: State) {
    && (forall t | t in st.threads :: ThreadOk(st, t))
    && (forall d | d in st.closedConns :: d in st.threads)
  }

  ghost predicate SessionsOk(st: State) {
    && (forall u | u in st.sessions :: MapOk(st, u))
    && (forall s | s in st.sess :: SessOk(st, s))
  }

  ghost predicate EntriesOk(st: State) {
    forall s, c | s in st.sess && c in st.sess[s].pending :: EntryOk(st, s, c)
  }

  ghost predicate ChansOk(st: State) {
    forall p | p in st.chans :: ChanOk(st, p)
  }

  ghost predicate WaitersOk(st: State) {
    Distinct(st) ==> forall p | p in st.chans :: Registrable(st, p)
  }

  /** The shared objects and the program counters agree. */
  ghost predicate DataInv(st: State) {
    !st.panicked && ThreadsOk(st) && SessionsOk(st) && EntriesOk(st) && ChansOk(st) && WaitersOk(st)
  }

  ghost predicate Inv(st: State) {
    LockInv(st) && DataInv(st)
  }

  lemma InitInv(st: State)
    requires Init(st)
    ensures Inv(st)
  {
  }

  // ----------------------------------------------- preservation: the locks

  predicate WantsWrite(pc: Pc) {
    HoldsWrite(pc) || pc.CDrain?
  }

  predicate ReadMove(st: State, t: Tid, st': State, was: bool, now: bool) {
    if was == now then st'.readers == st.readers
    else if now then st'.readers == st.readers + {t} && st.writer == None
    else st'.readers == st.readers - {t}
  }

  predicate WriteMove(st: State, t: Tid, st': State, pc: Pc, pc': Pc) {
    && (if WantsWrite(pc) == WantsWrite(pc') then st'.writer == st.writer
        else if WantsWrite(pc') then st'.writer == Some(t) && st.writer == None
        else st'.writer == None)
    && (HoldsWrite(pc') && !HoldsWrite(pc) ==> st.readers == {} && WantsWrite(pc))
  }

  predicate MuMove(st: State, t: Tid, st': State, was: Option<Tid>, now: Option<Tid>) {
    if was == now then st'.mus == st.mus
    else if now.Some? then was == None && Free(st, now.value) && st'.mus == st.mus[now.value := t]
    else st'.mus == st.mus - {was.value}
  }

  /** Only `t` moved, and every lock it holds now and did not hold before was
      free; every lock it no longer holds was released. */
  predicate LockMove(st: State, t: Tid, st': State) {
    t in st.threads && t in st'.threads && st'.threads == st.threads[t := st'.threads[t]] &&
    st.sess.Keys <= st'.sess.Keys &&
    var pc := st.threads[t].pc;
    var pc' := st'.threads[t].pc;
    && ReadMove(st, t, st', HoldsRead(pc), HoldsRead(pc'))
    && WriteMove(st, t, st', pc, pc')
    && MuMove(st, t, st', HoldsMu(pc), HoldsMu(pc'))
  }

  lemma LockMoveKeeps(st: State, t: Tid, st': State)
    requires LockInv(st) && LockMove(st, t, st')
    ensures LockInv(st')
  {
    assert LockOk(st, t);
    forall t' | t' in st'.threads ensures LockOk(st', t') {
      assert LockOk(st, t');
    }
    forall s | s in st'.mus ensures MuOk(st', s) {
      if s in st.mus { assert MuOk(st, s); }
    }
  }

  lemma SpawnLocks(st: State, t: Tid, role: Role)
    requires LockInv(st) && CanSpawn(st, t, role)
    ensures LockInv(DoSpawn(st, t, role))
  {
  }

  // ------------------------- preservation: steps that touch one thread only

  /** Moves other threads cannot notice. */
  predicate Plain(pc: Pc) {
    !pc.DSend? && !(pc.CSwap? && pc.kicked.Some?) && !Returned(pc)
  }

  ghost predicate Silent(st: State, t: Tid, st': State) {
    && t in st.threads && t in st'.threads && st'.threads == st.threads[t := st'.threads[t]]
    && st'.threads[t].role == st.threads[t].role
    && st'.route == st.route && st'.sessions == st.sessions && st'.sess == st.sess && st'.chans == st.chans
    && st'.panicked == st.panicked
    && (st'.closedConns == st.closedConns || st'.closedConns == st.closedConns + {t})
    && Plain(st.threads[t].pc) && Plain(st'.threads[t].pc)
    && HandedOver(st.threads[t].pc) == HandedOver(st'.threads[t].pc)
    && (HandedOver(st.threads[t].pc) ==> st'.threads[t].pc.out == st.threads[t].pc.out)
    && (st'.writer == st.writer || (st.writer == None && st'.writer == Some(t)))
  }

  lemma SilentThread(st: State, t: Tid, st': State, t': Tid)
    requires Silent(st, t, st') && t' != t && ThreadOk(st, t')
    ensures ThreadOk(st', t')
  {
  }

  lemma SilentChan(st: State, t: Tid, st': State, p: Tid)
    requires Silent(st, t, st') && p != t && ChanOk(st, p)
    ensures ChanOk(st', p)
  {
  }

  lemma SilentSess(st: State, t: Tid, st': State, s: Tid)
    requires Silent(st, t, st') && SessOk(st, s)
    ensures SessOk(st', s)
  {
  }

  lemma SilentEntry(st: State, t: Tid, st': State, s: Tid, c: ConnId)
    requires Silent(st, t, st') && EntryOk(st, s, c)
    ensures EntryOk(st', s, c)
  {
  }

  lemma SilentKeeps(st: State, t: Tid, st': State)
    requires DataInv(st) && Silent(st, t, st')
    requires ThreadOk(st', t)
    requires t in st.chans ==> ChanOk(st', t) && (Distinct(st') ==> Registrable(st', t))
    ensures DataInv(st')
  {
    SilentThreads(st, t, st');
    SilentObjects(st, t, st');
  }

  lemma SilentThreads(st: State, t: Tid, st': State)
    requires ThreadsOk(st) && SessionsOk(st) && Silent(st, t, st') && ThreadOk(st', t)
    ensures ThreadsOk(st') && SessionsOk(st')
  {
    forall t' | t' in st'.threads ensures ThreadOk(st', t') {
      if t' != t { SilentThread(st, t, st', t'); }
    }
    forall u | u in st'.sessions ensures MapOk(st', u) { assert MapOk(st, u); }
    forall s | s in st'.sess ensures SessOk(st', s) { SilentSess(st, t, st', s); }
  }

  lemma SilentObjects(st: State, t: Tid, st': State)
    requires EntriesOk(st) && ChansOk(st) && Silent(st, t, st') && (t in st.chans ==> ChanOk(st', t))
    ensures EntriesOk(st') && ChansOk(st')
  {
    forall s, c | s in st'.sess && c in st'.sess[s].pending ensures EntryOk(st', s, c) {
      SilentEntry(st, t, st', s, c);
    }
    forall p | p in st'.chans ensures ChanOk(st', p) {
      if p != t { SilentChan(st, t, st', p); }
    }
  }

  /** The moving thread's own share of the invariant. */
  predicate OwnOk(st: State, t: Tid) {
    ThreadOk(st, t) && (t in st.chans ==> ChanOk(st, t))
  }

  /** A silent step with everything that is to be shown of it. */
  ghost predicate Quietly(st: State, t: Tid, st': State) {
    && LockMove(st, t, st') && Silent(st, t, st') && OwnOk(st', t)
    && (t in st.chans && Registrable(st, t) ==> Registrable(st', t))
  }

  lemma QuietlyKeeps(st: State, t: Tid, st': State)
    requires Inv(st) && Quietly(st, t, st')
    ensures Inv(st')
  {
    LockMoveKeeps(st, t, st');
    SilentKeeps(st, t, st');
  }

  lemma MappedExist(st: State)
    requires Inv(st)
    ensures st.sessions.Values <= st.sess.Keys
  {
    forall s | s in st.sessions.Values ensures s in st.sess {
      var u :| u in st.sessions && st.sessions[u] == s;
      assert MapOk(st, u);
    }
  }

  lemma OwnShare(st: State, t: Tid)
    requires Inv(st) && t in st.threads
    ensures OwnOk(st, t)
  {
  }

  lemma PlayerRLockMove(st: State, t: Tid)
    requires CanRoute(st, t, PlayerRLock) && OwnOk(st, t)
    ensures Quietly(st, t, DoRoute(st, t, PlayerRLock))
  {
  }

  lemma FindMove(st: State, t: Tid, s: Tid)
    requires CanRoute(st, t, Find(s)) && OwnOk(st, t)
    ensures Quietly(st, t, DoRoute(st, t, Find(s)))
  {
  }

  lemma NoSessionMove(st: State, t: Tid)
    requires CanRoute(st, t, NoSession) && OwnOk(st, t)
    ensures Quietly(st, t, DoRoute(st, t, NoSession))
  {
  }

  lemma NotifyMove(st: State, t: Tid, c: ConnId)
    requires CanRoute(st, t, Notify(c)) && OwnOk(st, t)
    ensures Quietly(st, t, DoRoute(st, t, Notify(c)))
  {
  }

  lemma NotifyFailsMove(st: State, t: Tid)
    requires CanRoute(st, t, NotifyFails) && OwnOk(st, t)
    ensures Quietly(st, t, DoRoute(st, t, NotifyFails))
  {
  }

  lemma LockToAddLocks(st: State, t: Tid)
    requires CanRegister(st, t, LockToAdd)
    ensures LockMove(st, t, DoRegister(st, t, LockToAdd))
  {
  }

  lemma LockToAddMove(st: State, t: Tid)
    requires CanRegister(st, t, LockToAdd) && OwnOk(st, t)
    ensures Quietly(st, t, DoRegister(st, t, LockToAdd))
  {
    LockToAddLocks(st, t);
  }

  lemma TimeoutOwn(st: State, t: Tid)
    requires CanSelect(st, t, Timeout) && OwnOk(st, t)
    ensures OwnOk(DoSelect(st, t, Timeout), t)
  {
  }

  lemma TimeoutMove(st: State, t: Tid)
    requires CanSelect(st, t, Timeout) && OwnOk(st, t)
    ensures Quietly(st, t, DoSelect(st, t, Timeout))
  {
    TimeoutOwn(st, t);
  }

  lemma LockToDeleteOwn(st: State, t: Tid)
    requires CanSelect(st, t, LockToDelete) && OwnOk(st, t)
    ensures OwnOk(DoSelect(st, t, LockToDelete), t)
  {
  }

  lemma LockToDeleteMove(st: State, t: Tid)
    requires CanSelect(st, t, LockToDelete) && OwnOk(st, t)
    ensures Quietly(st, t, DoSelect(st, t, LockToDelete))
  {
    LockToDeleteOwn(st, t);
    LockToDeleteLocks(st, t);
  }

  lemma LockToDeleteLocks(st: State, t: Tid)
    requires CanSelect(st, t, LockToDelete)
    ensures LockMove(st, t, DoSelect(st, t, LockToDelete))
  {
  }

  lemma ReplayOkMove(st: State, t: Tid)
    requires CanBridge(st, t, Replay(true)) && OwnOk(st, t)
    ensures Quietly(st, t, DoBridge(st, t, Replay(true)))
  {
  }

  lemma DataRLockMove(st: State, t: Tid)
    requires CanScan(st, t, DataRLock) && OwnOk(st, t)
    ensures Quietly(st, t, DoScan(st, t, DataRLock))
  {
  }

  lemma VisitNextMove(st: State, t: Tid, s: Tid)
    requires CanScan(st, t, VisitNext(s)) && OwnOk(st, t)
    ensures Quietly(st, t, DoScan(st, t, VisitNext(s)))
  {
  }

  lemma NoneLeftMove(st: State, t: Tid)
    requires CanScan(st, t, NoneLeft) && OwnOk(st, t)
    ensures Quietly(st, t, DoScan(st, t, NoneLeft))
  {
  }

  lemma CloseMissedMove(st: State, t: Tid)
    requires CanScan(st, t, CloseMissed) && OwnOk(st, t)
    ensures Quietly(st, t, DoScan(st, t, CloseMissed))
  {
  }

  lemma DataRUnlockMove(st: State, t: Tid)
    requires CanScan(st, t, DataRUnlock) && OwnOk(st, t)
    ensures Quietly(st, t, DoScan(st, t, DataRUnlock))
  {
  }

  lemma LockToLookMove(st: State, t: Tid)
    requires CanLook(st, t, LockToLook) && OwnOk(st, t)
    ensures Quietly(st, t, DoLook(st, t, LockToLook))
  {
  }

  lemma LookPassesMove(st: State, t: Tid)
    requires CanLook(st, t, Look) && OwnOk(st, t)
    requires st.threads[t].role.cid !in st.sess[st.threads[t].pc.s].pending
    ensures Quietly(st, t, DoLook(st, t, Look))
  {
  }

  lemma LookRefusesMove(st: State, t: Tid)
    requires CanLook(st, t, Look) && OwnOk(st, t)
    requires st.threads[t].role.cid in st.sess[st.threads[t].pc.s].pending
    requires st.sess[st.threads[t].pc.s].token != st.threads[t].role.token
    ensures Quietly(st, t, DoLook(st, t, Look))
  {
  }

  lemma LookMatchesMove(st: State, t: Tid)
    requires CanLook(st, t, Look) && OwnOk(st, t)
    requires st.threads[t].role.cid in st.sess[st.threads[t].pc.s].pending
    requires st.sess[st.threads[t].pc.s].token == st.threads[t].role.token
    ensures Quietly(st, t, DoLook(st, t, Look))
  {
  }

  lemma LockToTakeMove(st: State, t: Tid)
    requires CanResolve(st, t, LockToTake) && OwnOk(st, t)
    ensures Quietly(st, t, DoResolve(st, t, LockToTake))
  {
  }

  lemma TakeNothingMove(st: State, t: Tid)
    requires CanResolve(st, t, Take) && OwnOk(st, t)
    requires st.threads[t].role.cid !in st.sess[st.threads[t].pc.s].pending
    ensures Quietly(st, t, DoResolve(st, t, Take))
  {
  }

  lemma ReceiveClosedMove(st: State, t: Tid)
    requires CanSelect(st, t, Receive) && OwnOk(st, t)
    requires st.chans[t].sends == []
    ensures Quietly(st, t, DoSelect(st, t, Receive))
  {
  }

  lemma AnnounceMove(st: State, t: Tid)
    requires CanManage(st, t, Announce) && OwnOk(st, t)
    ensures Quietly(st, t, DoManage(st, t, Announce))
  {
  }

  lemma AcquireMove(st: State, t: Tid)
    requires CanManage(st, t, Acquire) && OwnOk(st, t)
    ensures Quietly(st, t, DoManage(st, t, Acquire))
  {
  }

  lemma PickMove(st: State, t: Tid)
    requires CanManage(st, t, Pick) && OwnOk(st, t)
    ensures Quietly(st, t, DoManage(st, t, Pick))
  {
  }

  lemma ExitMove(st: State, t: Tid)
    requires CanManage(st, t, Exit) && OwnOk(st, t)
    ensures Quietly(st, t, DoManage(st, t, Exit))
  {
  }

  lemma LockToCloseMove(st: State, t: Tid)
    requires CanClose(st, t, LockToClose) && OwnOk(st, t)
    ensures Quietly(st, t, DoClose(st, t, LockToClose))
  {
  }

  lemma StatsRLockMove(st: State, t: Tid)
    requires CanSample(st, t, StatsRLock) && OwnOk(st, t) && st.sessions.Values <= st.sess.Keys
    ensures Quietly(st, t, DoSample(st, t, StatsRLock))
  {
  }

  lemma VisitMove(st: State, t: Tid, s: Tid)
    requires CanSample(st, t, Visit(s)) && OwnOk(st, t)
    ensures Quietly(st, t, DoSample(st, t, Visit(s)))
  {
  }

  lemma LockToSampleMove(st: State, t: Tid)
    requires CanSample(st, t, LockToSample) && OwnOk(st, t)
    ensures Quietly(st, t, DoSample(st, t, LockToSample))
  {
  }

  lemma SampleMove(st: State, t: Tid)
    requires CanSample(st, t, Sample) && OwnOk(st, t)
    ensures Quietly(st, t, DoSample(st, t, Sample))
  {
  }

  lemma StatsRUnlockMove(st: State, t: Tid)
    requires CanSample(st, t, StatsRUnlock) && OwnOk(st, t)
    ensures Quietly(st, t, DoSample(st, t, StatsRUnlock))
  {
  }
}
