/** Preservation of the rendezvous invariant by the steps that change a session
    or a channel, and by every step. */
module RendezvousSteps {
  import opened Wrappers
  import opened Rendezvous
  import opened RendezvousInvariant

  // ------------------- preservation: steps on one session and one channel

  predicate SameIdentity(x: Sess, y: Sess) {
    x.user == y.user && x.sub == y.sub && x.token == y.token && x.closes == y.closes
  }

  /** `t` moved, the pending map of `s` may have changed, the channel `p` may
      have changed and the connection `d` may have been closed. */
  ghost predicate Near(st: State, t: Tid, st': State, s: Tid, p: Tid, d: Tid) {
    && t in st.threads && t in st'.threads && st'.threads == st.threads[t := st'.threads[t]]
    && st'.threads[t].role == st.threads[t].role
    && st'.route == st.route && st'.sessions == st.sessions && st'.panicked == st.panicked
    && st'.writer == st.writer && !st.threads[t].pc.CSwap? && !st'.threads[t].pc.CSwap?
    && s in st.sess && s in st'.sess && st'.sess == st.sess[s := st'.sess[s]]
    && SameIdentity(st.sess[s], st'.sess[s])
    && p in st'.chans && st'.chans == st.chans[p := st'.chans[p]]
    && (p in st.chans || p == t)
    && (st'.closedConns == st.closedConns || (d in st.threads && st'.closedConns == st.closedConns + {d}))
  }

  /** The state of thread `u` mentions channel `p`, connection `d` or the
      handler `t`. */
  predicate Related(st: State, u: Tid, t: Tid, p: Tid, d: Tid)
    requires u in st.threads
  {
    var pc := st.threads[u].pc;
    || u == t || u == d || (pc.DSend? && pc.ch == p) || (HandedOver(pc) && (pc.out.p == p || pc.out.p == t))
  }

  lemma NearThread(st: State, t: Tid, st': State, s: Tid, p: Tid, d: Tid, u: Tid)
    requires Near(st, t, st', s, p, d) && ThreadOk(st, u) && !Related(st, u, t, p, d)
    ensures ThreadOk(st', u)
  {
  }

  lemma NearSess(st: State, t: Tid, st': State, s: Tid, p: Tid, d: Tid, x: Tid)
    requires Near(st, t, st', s, p, d) && SessOk(st, x)
    ensures SessOk(st', x)
  {
  }

  lemma NearEntry(st: State, t: Tid, st': State, s: Tid, p: Tid, d: Tid, x: Tid, c: ConnId)
    requires Near(st, t, st', s, p, d) && EntryOk(st, x, c) && st.sess[x].pending[c] != p
    requires x in st'.sess && c in st'.sess[x].pending && st'.sess[x].pending[c] == st.sess[x].pending[c]
    ensures EntryOk(st', x, c)
  {
  }

  /** A channel other than `p` that `t` neither made nor sends on. */
  lemma NearChan(st: State, t: Tid, st': State, s: Tid, p: Tid, d: Tid, q: Tid)
    requires Near(st, t, st', s, p, d) && ChanOk(st, q) && q != p && q != t
    requires st.chans[q].sender != Some(t)
    requires InMap(st', q) ==> InMap(st, q)
    ensures ChanOk(st', q)
  {
  }

  lemma NearThreads(st: State, t: Tid, st': State, s: Tid, p: Tid, d: Tid)
    requires Near(st, t, st', s, p, d) && ThreadsOk(st)
    requires forall u | u in st.threads && Related(st, u, t, p, d) :: ThreadOk(st', u)
    ensures ThreadsOk(st')
  {
    assert forall x | x in st.threads :: x in st'.threads;
    forall u | u in st'.threads ensures ThreadOk(st', u) {
      if !Related(st, u, t, p, d) { NearThread(st, t, st', s, p, d, u); }
    }
  }

  lemma NearSessions(st: State, t: Tid, st': State, s: Tid, p: Tid, d: Tid)
    requires Near(st, t, st', s, p, d) && SessionsOk(st)
    ensures SessionsOk(st')
  {
    forall x | x in st'.sess ensures SessOk(st', x) {
      NearSess(st, t, st', s, p, d, x);
    }
    forall u | u in st'.sessions ensures MapOk(st', u) {
      assert MapOk(st, u);
    }
  }

  /** Every entry is an old one that does not name `p`, or a sound new one. */
  lemma NearEntries(st: State, t: Tid, st': State, s: Tid, p: Tid, d: Tid)
    requires Near(st, t, st', s, p, d) && EntriesOk(st)
    requires forall x, c | x in st'.sess && c in st'.sess[x].pending ::
               EntryOk(st', x, c) || (EntryFrom(st, st', x, c) && st.sess[x].pending[c] != p)
    ensures EntriesOk(st')
  {
    forall x, c | x in st'.sess && c in st'.sess[x].pending ensures EntryOk(st', x, c) {
      if EntryFrom(st, st', x, c) && st.sess[x].pending[c] != p { NearEntry(st, t, st', s, p, d, x, c); }
    }
  }

  /** An entry that was there before the step. */
  predicate EntryFrom(st: State, st': State, x: Tid, c: ConnId) {
    && x in st.sess && c in st.sess[x].pending && x in st'.sess && c in st'.sess[x].pending
    && st'.sess[x].pending[c] == st.sess[x].pending[c]
  }

  lemma NearChans(st: State, t: Tid, st': State, s: Tid, p: Tid, d: Tid)
    requires Near(st, t, st', s, p, d) && ChansOk(st)
    requires ChanOk(st', p) && (t in st'.chans ==> ChanOk(st', t))
    requires forall q | q in st.chans && q != p :: st.chans[q].sender != Some(t)
    requires forall q | q in st'.chans && q != t && InMap(st', q) :: InMap(st, q)
    ensures ChansOk(st')
  {
    forall q | q in st'.chans ensures ChanOk(st', q) {
      if q != p && q != t { NearChan(st, t, st', s, p, d, q); }
    }
  }

  /** Steps keep the session and conn_id of every channel. */
  lemma DistinctBefore(st: State, st': State)
    requires Distinct(st')
    requires forall q | q in st.chans :: q in st'.chans && SameKey(st'.chans[q], st.chans[q])
    ensures Distinct(st)
  {
    forall a, b | a in st.chans && b in st.chans && SameKey(st.chans[a], st.chans[b]) ensures a == b {
      assert SameKey(st'.chans[a], st.chans[a]) && SameKey(st'.chans[b], st.chans[b]);
      assert SameKey(st'.chans[a], st'.chans[b]);
    }
  }

  /** Under the read lock every mapped session is open: a writer that closed
      one takes it out of the map before it unlocks. */
  lemma ReaderSeesOpen(st: State, t: Tid, s: Tid)
    requires Inv(st) && t in st.threads && HoldsRead(st.threads[t].pc) && s in st.sessions.Values
    ensures s in st.sess && st.sess[s].closes == 0 && Mapped(st, s)
  {
    assert LockOk(st, t);
    assert st.writer.Some? ==> LockOk(st, st.writer.value);
    var u :| u in st.sessions && st.sessions[u] == s;
    assert MapOk(st, u);
    assert SessOk(st, s);
  }

  lemma PlayersSendNothing(st: State, t: Tid)
    requires ChansOk(st) && IsPlayer(st, t)
    ensures forall q | q in st.chans :: st.chans[q].sender != Some(t)
  {
    forall q | q in st.chans ensures st.chans[q].sender != Some(t) {
      assert ChanOk(st, q);
    }
  }

  lemma OnlyHandlerOf(st: State, t: Tid, p: Tid)
    requires ChansOk(st) && IsData(st, t) && ThreadOk(st, t) && !HandedOver(st.threads[t].pc)
    requires !st.threads[t].pc.DSend? || st.threads[t].pc.ch == p
    ensures forall q | q in st.chans && q != p :: st.chans[q].sender != Some(t)
  {
    forall q | q in st.chans && q != p ensures st.chans[q].sender != Some(t) {
      assert ChanOk(st, q);
    }
  }

  // AddPendingConn

  lemma InsertLocks(st: State, t: Tid)
    requires CanRegister(st, t, Insert)
    ensures LockMove(st, t, DoRegister(st, t, Insert))
  {
  }

  lemma InsertRelated(st: State, t: Tid, u: Tid)
    requires CanRegister(st, t, Insert)
    requires ThreadOk(st, t)
    requires u in st.threads && Related(st, u, t, t, t) && ThreadOk(st, u)
    ensures ThreadOk(DoRegister(st, t, Insert), u)
  {
  }

  lemma InsertThreads(st: State, t: Tid)
    requires DataInv(st) && CanRegister(st, t, Insert)
    ensures ThreadsOk(DoRegister(st, t, Insert)) && SessionsOk(DoRegister(st, t, Insert))
  {
    var st' := DoRegister(st, t, Insert);
    var s := st.threads[t].pc.s;
    assert ThreadOk(st, t);
    forall u | u in st.threads && Related(st, u, t, t, t) ensures ThreadOk(st', u) {
      InsertRelated(st, t, u);
    }
    NearThreads(st, t, st', s, t, t);
    NearSessions(st, t, st', s, t, t);
  }

  lemma InsertEntries(st: State, t: Tid)
    requires DataInv(st) && CanRegister(st, t, Insert)
    ensures EntriesOk(DoRegister(st, t, Insert))
  {
    var st' := DoRegister(st, t, Insert);
    var s := st.threads[t].pc.s;
    assert ThreadOk(st, t);
    forall x, c | x in st'.sess && c in st'.sess[x].pending
      ensures EntryOk(st', x, c) || (EntryFrom(st, st', x, c) && st.sess[x].pending[c] != t)
    {
      if EntryFrom(st, st', x, c) { assert EntryOk(st, x, c); }
    }
    NearEntries(st, t, st', s, t, t);
  }

  lemma InsertChans(st: State, t: Tid)
    requires DataInv(st) && CanRegister(st, t, Insert)
    ensures ChansOk(DoRegister(st, t, Insert))
  {
    assert ThreadOk(st, t);
    PlayersSendNothing(st, t);
    NearChans(st, t, DoRegister(st, t, Insert), st.threads[t].pc.s, t, t);
  }

  lemma InsertRegistrable(st: State, t: Tid, q: Tid)
    requires CanRegister(st, t, Insert) && q in st.chans && Registrable(st, q)
    requires ThreadOk(st, t) && ChanOk(st, q) && q != t && Distinct(DoRegister(st, t, Insert))
    ensures Registrable(DoRegister(st, t, Insert), q)
  {
    var st' := DoRegister(st, t, Insert);
    assert !SameKey(st'.chans[q], st'.chans[t]);
  }

  lemma InsertWaiters(st: State, t: Tid)
    requires Inv(st) && CanRegister(st, t, Insert)
    ensures WaitersOk(DoRegister(st, t, Insert))
  {
    var st' := DoRegister(st, t, Insert);
    if Distinct(st') {
      DistinctBefore(st, st');
      forall q | q in st'.chans ensures Registrable(st', q) {
        if q != t { InsertRegistrable(st, t, q); }
      }
    }
  }

  lemma InsertKeeps(st: State, t: Tid)
    requires Inv(st) && CanRegister(st, t, Insert)
    ensures Inv(DoRegister(st, t, Insert))
  {
    var st' := DoRegister(st, t, Insert);
    InsertLocks(st, t);
    LockMoveKeeps(st, t, st');
    InsertThreads(st, t);
    InsertEntries(st, t);
    InsertChans(st, t);
    InsertWaiters(st, t);
  }

  // WaitForDataConn receives, or deletes after a timeout

  lemma ReceiveLocks(st: State, t: Tid)
    requires CanSelect(st, t, Receive)
    requires st.chans[t].sends != []
    ensures LockMove(st, t, DoSelect(st, t, Receive))
  {
  }

  lemma ReceiveRelated(st: State, t: Tid, u: Tid)
    requires CanSelect(st, t, Receive)
    requires st.chans[t].sends != []
    requires ThreadOk(st, t) && ChanOk(st, t)
    requires u in st.threads && Related(st, u, t, t, t) && ThreadOk(st, u)
    ensures ThreadOk(DoSelect(st, t, Receive), u)
  {
  }

  lemma ReceiveThreads(st: State, t: Tid)
    requires DataInv(st) && CanSelect(st, t, Receive)
    requires st.chans[t].sends != []
    ensures ThreadsOk(DoSelect(st, t, Receive)) && SessionsOk(DoSelect(st, t, Receive))
  {
    var st' := DoSelect(st, t, Receive);
    var s := st.threads[t].pc.s;
    assert ThreadOk(st, t) && ChanOk(st, t);
    forall u | u in st.threads && Related(st, u, t, t, t) ensures ThreadOk(st', u) {
      ReceiveRelated(st, t, u);
    }
    NearThreads(st, t, st', s, t, t);
    NearSessions(st, t, st', s, t, t);
  }

  lemma ReceiveEntries(st: State, t: Tid)
    requires DataInv(st) && CanSelect(st, t, Receive)
    requires st.chans[t].sends != []
    ensures EntriesOk(DoSelect(st, t, Receive))
  {
    var st' := DoSelect(st, t, Receive);
    var s := st.threads[t].pc.s;
    assert ThreadOk(st, t) && ChanOk(st, t);
    forall x, c | x in st'.sess && c in st'.sess[x].pending
      ensures EntryFrom(st, st', x, c) && st.sess[x].pending[c] != t
    {
      assert EntryOk(st, x, c);
    }
    NearEntries(st, t, st', s, t, t);
  }

  lemma ReceiveChans(st: State, t: Tid)
    requires DataInv(st) && CanSelect(st, t, Receive)
    requires st.chans[t].sends != []
    ensures ChansOk(DoSelect(st, t, Receive))
  {
    assert ThreadOk(st, t) && ChanOk(st, t);
    PlayersSendNothing(st, t);
    NearChans(st, t, DoSelect(st, t, Receive), st.threads[t].pc.s, t, t);
  }

  lemma ReceiveRegistrable(st: State, t: Tid, q: Tid)
    requires CanSelect(st, t, Receive) && q in st.chans && Registrable(st, q)
    requires st.chans[t].sends != [] && ChanOk(st, t)
    ensures Registrable(DoSelect(st, t, Receive), q)
  {
  }

  lemma ReceiveWaiters(st: State, t: Tid)
    requires Inv(st) && CanSelect(st, t, Receive)
    requires st.chans[t].sends != []
    ensures WaitersOk(DoSelect(st, t, Receive))
  {
    var st' := DoSelect(st, t, Receive);
    if Distinct(st') {
      DistinctBefore(st, st');
      forall q | q in st'.chans ensures Registrable(st', q) {
        ReceiveRegistrable(st, t, q);
      }
    }
  }

  lemma ReceiveKeeps(st: State, t: Tid)
    requires Inv(st) && CanSelect(st, t, Receive)
    requires st.chans[t].sends != []
    ensures Inv(DoSelect(st, t, Receive))
  {
    var st' := DoSelect(st, t, Receive);
    ReceiveLocks(st, t);
    LockMoveKeeps(st, t, st');
    ReceiveThreads(st, t);
    ReceiveEntries(st, t);
    ReceiveChans(st, t);
    ReceiveWaiters(st, t);
  }

  lemma DeleteLocks(st: State, t: Tid)
    requires CanSelect(st, t, Delete)
    ensures LockMove(st, t, DoSelect(st, t, Delete))
  {
  }

  lemma DeleteRelated(st: State, t: Tid, u: Tid)
    requires CanSelect(st, t, Delete)
    requires ThreadOk(st, t) && ChanOk(st, t)
    requires u in st.threads && Related(st, u, t, t, t) && ThreadOk(st, u)
    ensures ThreadOk(DoSelect(st, t, Delete), u)
  {
  }

  lemma DeleteThreads(st: State, t: Tid)
    requires DataInv(st) && CanSelect(st, t, Delete)
    ensures ThreadsOk(DoSelect(st, t, Delete)) && SessionsOk(DoSelect(st, t, Delete))
  {
    var st' := DoSelect(st, t, Delete);
    var s := st.threads[t].pc.s;
    assert ThreadOk(st, t) && ChanOk(st, t);
    forall u | u in st.threads && Related(st, u, t, t, t) ensures ThreadOk(st', u) {
      DeleteRelated(st, t, u);
    }
    NearThreads(st, t, st', s, t, t);
    NearSessions(st, t, st', s, t, t);
  }

  lemma DeleteEntries(st: State, t: Tid)
    requires DataInv(st) && CanSelect(st, t, Delete)
    ensures EntriesOk(DoSelect(st, t, Delete))
  {
    var st' := DoSelect(st, t, Delete);
    var s := st.threads[t].pc.s;
    assert ThreadOk(st, t) && ChanOk(st, t);
    forall x, c | x in st'.sess && c in st'.sess[x].pending
      ensures EntryFrom(st, st', x, c) && st.sess[x].pending[c] != t
    {
      assert EntryOk(st, x, c);
    }
    NearEntries(st, t, st', s, t, t);
  }

  lemma DeleteOwn(st: State, t: Tid)
    requires CanSelect(st, t, Delete) && OwnOk(st, t) && t in st.chans
    requires InMap(st, t) ==> Quiet(st.chans[t])
    ensures ChanOk(DoSelect(st, t, Delete), t)
  {
    var st' := DoSelect(st, t, Delete);
    DeleteHistory(st, t);
    assert OwnerOk(st', t, st'.chans[t], st'.threads[t].pc);
  }

  lemma DeleteHistory(st: State, t: Tid)
    requires CanSelect(st, t, Delete) && OwnOk(st, t) && t in st.chans
    ensures HistoryOk(DoSelect(st, t, Delete), t, st.chans[t])
  {
  }

  lemma DeleteIsNear(st: State, t: Tid)
    requires CanSelect(st, t, Delete) && OwnOk(st, t) && t in st.chans
    ensures var st' := DoSelect(st, t, Delete);
            && Near(st, t, st', st.threads[t].pc.s, t, t)
            && forall q | q in st'.chans && InMap(st', q) :: InMap(st, q)
  {
  }

  lemma DeleteChans(st: State, t: Tid)
    requires Inv(st) && CanSelect(st, t, Delete)
    ensures ChansOk(DoSelect(st, t, Delete))
  {
    var s := st.threads[t].pc.s;
    OwnShare(st, t);
    assert InMap(st, t) ==> EntryOk(st, s, st.threads[t].pc.c);
    DeleteOwn(st, t);
    PlayersSendNothing(st, t);
    DeleteIsNear(st, t);
    NearChans(st, t, DoSelect(st, t, Delete), s, t, t);
  }

  lemma DeleteRegistrable(st: State, t: Tid, q: Tid)
    requires CanSelect(st, t, Delete) && q in st.chans && Registrable(st, q)
    requires ThreadOk(st, t) && ChanOk(st, t) && ChanOk(st, q) && Distinct(st)
    ensures Registrable(DoSelect(st, t, Delete), q)
  {
    assert SameKey(st.chans[q], st.chans[t]) ==> q == t;
  }

  lemma DeleteWaiters(st: State, t: Tid)
    requires Inv(st) && CanSelect(st, t, Delete)
    ensures WaitersOk(DoSelect(st, t, Delete))
  {
    var st' := DoSelect(st, t, Delete);
    if Distinct(st') {
      DistinctBefore(st, st');
      forall q | q in st'.chans ensures Registrable(st', q) {
        DeleteRegistrable(st, t, q);
      }
    }
  }

  lemma DeleteKeeps(st: State, t: Tid)
    requires Inv(st) && CanSelect(st, t, Delete)
    ensures Inv(DoSelect(st, t, Delete))
  {
    var st' := DoSelect(st, t, Delete);
    DeleteLocks(st, t);
    LockMoveKeeps(st, t, st');
    DeleteThreads(st, t);
    DeleteEntries(st, t);
    DeleteChans(st, t);
    DeleteWaiters(st, t);
  }

  // a player gives up the data connection it received, which closes it

  predicate CanGiveBack(st: State, t: Tid, why: Ending) {
    IsPlayer(st, t) && Matched(st.threads[t].pc) && (why.ReplayFailed? || why.BridgeOver?)
  }

  function GiveBack(st: State, t: Tid, why: Ending): State
    requires CanGiveBack(st, t, why)
  {
    CloseConn(Goto(st, t, PEnd(why)), st.threads[t].pc.d)
  }

  lemma GiveBackLocks(st: State, t: Tid, why: Ending)
    requires CanGiveBack(st, t, why)
    ensures LockMove(st, t, GiveBack(st, t, why))
  {
  }

  lemma GiveBackRelated(st: State, t: Tid, why: Ending, u: Tid)
    requires CanGiveBack(st, t, why)
    requires ThreadOk(st, t) && ChanOk(st, t)
    requires u in st.threads && Related(st, u, t, t, st.threads[t].pc.d) && ThreadOk(st, u)
    ensures ThreadOk(GiveBack(st, t, why), u)
  {
  }

  lemma GiveBackThreads(st: State, t: Tid, why: Ending)
    requires DataInv(st) && CanGiveBack(st, t, why)
    ensures ThreadsOk(GiveBack(st, t, why)) && SessionsOk(GiveBack(st, t, why))
  {
    var st' := GiveBack(st, t, why);
    var s := st.threads[t].pc.s;
    var d := st.threads[t].pc.d;
    assert ThreadOk(st, t) && ChanOk(st, t);
    forall u | u in st.threads && Related(st, u, t, t, d) ensures ThreadOk(st', u) {
      GiveBackRelated(st, t, why, u);
    }
    NearThreads(st, t, st', s, t, d);
    NearSessions(st, t, st', s, t, d);
  }

  lemma GiveBackEntries(st: State, t: Tid, why: Ending)
    requires DataInv(st) && CanGiveBack(st, t, why)
    ensures EntriesOk(GiveBack(st, t, why))
  {
    var st' := GiveBack(st, t, why);
    assert ThreadOk(st, t) && ChanOk(st, t);
    forall x, c | x in st'.sess && c in st'.sess[x].pending
      ensures EntryFrom(st, st', x, c) && st.sess[x].pending[c] != t
    {
      assert EntryOk(st, x, c);
    }
    NearEntries(st, t, st', st.threads[t].pc.s, t, st.threads[t].pc.d);
  }

  lemma GiveBackChans(st: State, t: Tid, why: Ending)
    requires DataInv(st) && CanGiveBack(st, t, why)
    ensures ChansOk(GiveBack(st, t, why))
  {
    assert ThreadOk(st, t) && ChanOk(st, t);
    PlayersSendNothing(st, t);
    NearChans(st, t, GiveBack(st, t, why), st.threads[t].pc.s, t, st.threads[t].pc.d);
  }

  lemma GiveBackRegistrable(st: State, t: Tid, why: Ending, q: Tid)
    requires CanGiveBack(st, t, why) && q in st.chans && Registrable(st, q)
    ensures Registrable(GiveBack(st, t, why), q)
  {
  }

  lemma GiveBackWaiters(st: State, t: Tid, why: Ending)
    requires Inv(st) && CanGiveBack(st, t, why)
    ensures WaitersOk(GiveBack(st, t, why))
  {
    var st' := GiveBack(st, t, why);
    if Distinct(st') {
      DistinctBefore(st, st');
      forall q | q in st'.chans ensures Registrable(st', q) {
        GiveBackRegistrable(st, t, why, q);
      }
    }
  }

  lemma GiveBackKeeps(st: State, t: Tid, why: Ending)
    requires Inv(st) && CanGiveBack(st, t, why)
    ensures Inv(GiveBack(st, t, why))
  {
    var st' := GiveBack(st, t, why);
    GiveBackLocks(st, t, why);
    LockMoveKeeps(st, t, st');
    GiveBackThreads(st, t, why);
    GiveBackEntries(st, t, why);
    GiveBackChans(st, t, why);
    GiveBackWaiters(st, t, why);
  }

  // ResolvePendingConn

  lemma TakeLocks(st: State, t: Tid)
    requires CanResolve(st, t, Take)
    requires st.threads[t].role.cid in st.sess[st.threads[t].pc.s].pending
    ensures LockMove(st, t, DoResolve(st, t, Take))
  {
  }

  lemma TakeRelated(st: State, t: Tid, u: Tid)
    requires CanResolve(st, t, Take)
    requires st.threads[t].role.cid in st.sess[st.threads[t].pc.s].pending
    requires ChanOk(st, st.sess[st.threads[t].pc.s].pending[st.threads[t].role.cid])
    requires EntryOk(st, st.threads[t].pc.s, st.threads[t].role.cid)
    requires ThreadOk(st, t)
    requires u in st.threads && ThreadOk(st, u)
    requires Related(st, u, t, st.sess[st.threads[t].pc.s].pending[st.threads[t].role.cid], t)
    ensures ThreadOk(DoResolve(st, t, Take), u)
  {
  }

  lemma TakeThreads(st: State, t: Tid)
    requires DataInv(st) && CanResolve(st, t, Take)
    requires st.threads[t].role.cid in st.sess[st.threads[t].pc.s].pending
    ensures ThreadsOk(DoResolve(st, t, Take)) && SessionsOk(DoResolve(st, t, Take))
  {
    var st' := DoResolve(st, t, Take);
    var s := st.threads[t].pc.s;
    var p := st.sess[s].pending[st.threads[t].role.cid];
    assert ThreadOk(st, t) && EntryOk(st, s, st.threads[t].role.cid) && ChanOk(st, p);
    forall u | u in st.threads && Related(st, u, t, p, t) ensures ThreadOk(st', u) {
      TakeRelated(st, t, u);
    }
    NearThreads(st, t, st', s, p, t);
    NearSessions(st, t, st', s, p, t);
  }

  lemma TakeEntries(st: State, t: Tid)
    requires DataInv(st) && CanResolve(st, t, Take)
    requires st.threads[t].role.cid in st.sess[st.threads[t].pc.s].pending
    ensures EntriesOk(DoResolve(st, t, Take))
  {
    var st' := DoResolve(st, t, Take);
    var s := st.threads[t].pc.s;
    var p := st.sess[s].pending[st.threads[t].role.cid];
    assert ThreadOk(st, t) && EntryOk(st, s, st.threads[t].role.cid) && ChanOk(st, p);
    forall x, c | x in st'.sess && c in st'.sess[x].pending
      ensures EntryFrom(st, st', x, c) && st.sess[x].pending[c] != p
    {
      assert EntryOk(st, x, c);
    }
    NearEntries(st, t, st', s, p, t);
  }

  lemma TakeOwn(st: State, t: Tid, p: Tid)
    requires CanResolve(st, t, Take) && OwnOk(st, t) && ChanOk(st, p) && InMap(st, p)
    requires st.threads[t].role.cid in st.sess[st.threads[t].pc.s].pending
    requires p == st.sess[st.threads[t].pc.s].pending[st.threads[t].role.cid]
    requires EntryOk(st, st.threads[t].pc.s, st.threads[t].role.cid) && st.sess[st.threads[t].pc.s].closes == 0
    ensures ChanOk(DoResolve(st, t, Take), p)
  {
  }

  lemma TakeChans(st: State, t: Tid)
    requires Inv(st) && CanResolve(st, t, Take)
    requires st.threads[t].role.cid in st.sess[st.threads[t].pc.s].pending
    ensures ChansOk(DoResolve(st, t, Take))
  {
    var st' := DoResolve(st, t, Take);
    var s := st.threads[t].pc.s;
    var p := st.sess[s].pending[st.threads[t].role.cid];
    assert ThreadOk(st, t) && EntryOk(st, s, st.threads[t].role.cid) && ChanOk(st, p);
    assert t in st.chans ==> ChanOk(st, t);
    assert InMap(st, p);
    ReaderSeesOpen(st, t, s);
    OwnShare(st, t);
    TakeOwn(st, t, p);
    OnlyHandlerOf(st, t, p);
    NearChans(st, t, st', s, p, t);
  }

  lemma TakeRegistrable(st: State, t: Tid, q: Tid)
    requires CanResolve(st, t, Take) && q in st.chans && Registrable(st, q)
    requires st.threads[t].role.cid in st.sess[st.threads[t].pc.s].pending
    requires EntryOk(st, st.threads[t].pc.s, st.threads[t].role.cid) && ChanOk(st, q)
    ensures Registrable(DoResolve(st, t, Take), q)
  {
  }

  lemma TakeWaiters(st: State, t: Tid)
    requires Inv(st) && CanResolve(st, t, Take)
    requires st.threads[t].role.cid in st.sess[st.threads[t].pc.s].pending
    ensures WaitersOk(DoResolve(st, t, Take))
  {
    var st' := DoResolve(st, t, Take);
    if Distinct(st') {
      DistinctBefore(st, st');
      forall q | q in st'.chans ensures Registrable(st', q) {
        TakeRegistrable(st, t, q);
      }
    }
  }

  lemma TakeKeeps(st: State, t: Tid)
    requires Inv(st) && CanResolve(st, t, Take)
    requires st.threads[t].role.cid in st.sess[st.threads[t].pc.s].pending
    ensures Inv(DoResolve(st, t, Take))
  {
    var st' := DoResolve(st, t, Take);
    TakeLocks(st, t);
    LockMoveKeeps(st, t, st');
    TakeThreads(st, t);
    TakeEntries(st, t);
    TakeChans(st, t);
    TakeWaiters(st, t);
  }

  lemma SendLocks(st: State, t: Tid)
    requires CanResolve(st, t, Send) && OwnOk(st, t)
    requires st.threads[t].pc.ch in st.chans && st.chans[st.threads[t].pc.ch].closes == 0
    ensures LockMove(st, t, DoResolve(st, t, Send))
  {
  }

  lemma SendRelated(st: State, t: Tid, u: Tid)
    requires CanResolve(st, t, Send)
    requires ThreadOk(st, t) && ChanOk(st, st.threads[t].pc.ch)
    requires u in st.threads && Related(st, u, t, st.threads[t].pc.ch, t) && ThreadOk(st, u)
    ensures ThreadOk(DoResolve(st, t, Send), u)
  {
  }

  lemma SendThreads(st: State, t: Tid)
    requires DataInv(st) && CanResolve(st, t, Send)
    ensures ThreadsOk(DoResolve(st, t, Send)) && SessionsOk(DoResolve(st, t, Send))
  {
    var st' := DoResolve(st, t, Send);
    var s := st.threads[t].pc.s;
    var p := st.threads[t].pc.ch;
    assert ThreadOk(st, t) && ChanOk(st, p);
    forall u | u in st.threads && Related(st, u, t, p, t) ensures ThreadOk(st', u) {
      SendRelated(st, t, u);
    }
    NearThreads(st, t, st', s, p, t);
    NearSessions(st, t, st', s, p, t);
  }

  lemma SendEntries(st: State, t: Tid)
    requires DataInv(st) && CanResolve(st, t, Send)
    ensures EntriesOk(DoResolve(st, t, Send))
  {
    var st' := DoResolve(st, t, Send);
    var s := st.threads[t].pc.s;
    var p := st.threads[t].pc.ch;
    assert ThreadOk(st, t) && ChanOk(st, p);
    forall x, c | x in st'.sess && c in st'.sess[x].pending
      ensures EntryFrom(st, st', x, c) && st.sess[x].pending[c] != p
    {
      assert EntryOk(st, x, c);
    }
    NearEntries(st, t, st', s, p, t);
  }

  lemma SendChans(st: State, t: Tid)
    requires DataInv(st) && CanResolve(st, t, Send)
    ensures ChansOk(DoResolve(st, t, Send))
  {
    var st' := DoResolve(st, t, Send);
    var s := st.threads[t].pc.s;
    var p := st.threads[t].pc.ch;
    assert ThreadOk(st, t) && ChanOk(st, p);
    assert t in st.chans ==> ChanOk(st, t);
    forall q | q in st.chans && q != p ensures st.chans[q].sender != Some(t) {
      assert ChanOk(st, q);
    }
    NearChans(st, t, st', s, p, t);
  }

  lemma SendRegistrable(st: State, t: Tid, q: Tid)
    requires CanResolve(st, t, Send) && q in st.chans && Registrable(st, q)
    requires ThreadOk(st, t) && ChanOk(st, st.threads[t].pc.ch)
    ensures Registrable(DoResolve(st, t, Send), q)
  {
  }

  lemma SendKeeps(st: State, t: Tid)
    requires Inv(st) && CanResolve(st, t, Send)
    ensures Inv(DoResolve(st, t, Send))
  {
    var st' := DoResolve(st, t, Send);
    OwnShare(st, t);
    assert ChanOk(st, st.threads[t].pc.ch);
    assert st.chans[st.threads[t].pc.ch].sender == Some(t);
    SendLocks(st, t);
    LockMoveKeeps(st, t, st');
    SendThreads(st, t);
    SendEntries(st, t);
    SendChans(st, t);
    if Distinct(st') {
      DistinctBefore(st, st');
      forall q | q in st'.chans ensures Registrable(st', q) {
        SendRegistrable(st, t, q);
      }
    }
  }

  // Session.Close

  lemma ClosedThread(st: State, t: Tid, u: Tid)
    requires Inv(st) && CanClose(st, t, CloseAll) && u in st.threads
    ensures ThreadOk(DoClose(st, t, CloseAll), u)
  {
    assert ThreadOk(st, t) && ThreadOk(st, u);
    var s := st.threads[t].pc.s;
    forall c | c in st.sess[s].pending ensures Quiet(st.chans[st.sess[s].pending[c]]) {
      assert EntryOk(st, s, c);
    }
  }

  lemma CloseSessions(st: State, t: Tid)
    requires Inv(st) && CanClose(st, t, CloseAll)
    ensures SessionsOk(DoClose(st, t, CloseAll))
  {
    var st' := DoClose(st, t, CloseAll);
    assert ThreadOk(st, t) && LockOk(st, t);
    forall x | x in st'.sess ensures SessOk(st', x) {
      assert SessOk(st, x);
    }
    forall u | u in st'.sessions ensures MapOk(st', u) {
      assert MapOk(st, u);
    }
  }

  lemma ClosedEntry(st: State, t: Tid, x: Tid, c: ConnId)
    requires Inv(st) && CanClose(st, t, CloseAll)
    requires x in st.sess && x != st.threads[t].pc.s && c in st.sess[x].pending
    ensures EntryOk(DoClose(st, t, CloseAll), x, c)
  {
    var s := st.threads[t].pc.s;
    assert EntryOk(st, x, c);
    forall k | k in st.sess[s].pending ensures st.sess[s].pending[k] != st.sess[x].pending[c] {
      assert EntryOk(st, s, k);
    }
  }

  lemma ClosedChan(st: State, t: Tid, p: Tid)
    requires Inv(st) && CanClose(st, t, CloseAll) && p in st.chans
    ensures ChanOk(DoClose(st, t, CloseAll), p)
  {
    var s := st.threads[t].pc.s;
    assert ThreadOk(st, t) && LockOk(st, t) && ChanOk(st, p) && SessOk(st, s);
    if p in st.sess[s].pending.Values {
      var c :| c in st.sess[s].pending && st.sess[s].pending[c] == p;
      assert EntryOk(st, s, c);
      ClosedPending(st, t, p, c);
    } else {
      ClosedBystander(st, t, p);
    }
  }

  lemma ClosedPending(st: State, t: Tid, p: Tid, c: ConnId)
    requires CanClose(st, t, CloseAll) && ChanOk(st, p) && EntryOk(st, st.threads[t].pc.s, c)
    requires st.sess[st.threads[t].pc.s].pending[c] == p && st.sess[st.threads[t].pc.s].closes == 0
    ensures ChanOk(DoClose(st, t, CloseAll), p)
  {
    assert p in st.sess[st.threads[t].pc.s].pending.Values;
  }

  lemma ClosedBystander(st: State, t: Tid, p: Tid)
    requires CanClose(st, t, CloseAll) && ChanOk(st, p) && p !in st.sess[st.threads[t].pc.s].pending.Values
    ensures ChanOk(DoClose(st, t, CloseAll), p)
  {
  }

  /** No channel is closed twice. */
  lemma CloseIsSafe(st: State, t: Tid)
    requires Inv(st) && CanClose(st, t, CloseAll)
    ensures !DoubleClose(st.sess[st.threads[t].pc.s], st.chans)
  {
    var s := st.threads[t].pc.s;
    forall c | c in st.sess[s].pending
      ensures st.sess[s].pending[c] in st.chans && st.chans[st.sess[s].pending[c]].closes == 0
      ensures st.chans[st.sess[s].pending[c]].cid == c
    {
      assert EntryOk(st, s, c);
    }
  }

  lemma ClosedRegistrable(st: State, t: Tid, q: Tid)
    requires Inv(st) && CanClose(st, t, CloseAll)
    requires q in st.chans && Distinct(DoClose(st, t, CloseAll))
    ensures Registrable(DoClose(st, t, CloseAll), q)
  {
    DistinctBefore(st, DoClose(st, t, CloseAll));
    assert Registrable(st, q) && ChanOk(st, q) && ThreadOk(st, t);
  }

  lemma CloseAllKeeps(st: State, t: Tid)
    requires Inv(st) && CanClose(st, t, CloseAll)
    ensures Inv(DoClose(st, t, CloseAll))
  {
    var st' := DoClose(st, t, CloseAll);
    LockMoveKeeps(st, t, st');
    CloseIsSafe(st, t);
    CloseSessions(st, t);
    forall u | u in st'.threads ensures ThreadOk(st', u) { ClosedThread(st, t, u); }
    forall x, c | x in st'.sess && c in st'.sess[x].pending ensures EntryOk(st', x, c) { ClosedEntry(st, t, x, c); }
    forall p | p in st'.chans ensures ChanOk(st', p) { ClosedChan(st, t, p); }
    forall q | q in st'.chans && Distinct(st') ensures Registrable(st', q) { ClosedRegistrable(st, t, q); }
  }

  // the end of CreateSession and RemoveSession

  /** The step changes the map of sessions at the writer's user only. */
  ghost predicate Swapped(st: State, t: Tid, st': State) {
    IsControl(st, t) && st.threads[t].pc.CSwap? && t in st'.threads
    && st'.threads == st.threads[t := st'.threads[t]] && st'.threads[t].role == st.threads[t].role
    && st'.route == st.route && st'.chans == st.chans && st'.closedConns == st.closedConns
    && st'.panicked == st.panicked && st'.writer == None
    && (if st.threads[t].pc.op.Create? then st' == DoCreate(st, t) else st' == DoRemove(st, t))
  }

  lemma CreateLocks(st: State, t: Tid)
    requires CanManage(st, t, Swap) && st.threads[t].pc.op.Create?
    ensures LockMove(st, t, DoCreate(st, t))
  {
  }

  lemma RemoveLocks(st: State, t: Tid)
    requires CanManage(st, t, Swap)
    ensures LockMove(st, t, DoRemove(st, t))
  {
  }

  lemma SwapShape(st: State, t: Tid)
    requires CanManage(st, t, Swap)
    ensures Swapped(st, t, DoManage(st, t, Swap))
  {
  }

  lemma SwappedThread(st: State, t: Tid, st': State, u: Tid)
    requires Inv(st) && Swapped(st, t, st') && u in st.threads
    ensures ThreadOk(st', u)
  {
    assert ThreadOk(st, t) && ThreadOk(st, u) && LockOk(st, t) && LockOk(st, u);
  }

  lemma SwappedSess(st: State, t: Tid, st': State, x: Tid)
    requires Inv(st) && Swapped(st, t, st') && x in st.sess
    ensures SessOk(st', x)
  {
    assert ThreadOk(st, t) && LockOk(st, t) && SessOk(st, x);
  }

  lemma SwappedMap(st: State, t: Tid, st': State, u: string)
    requires Inv(st) && Swapped(st, t, st') && u in st'.sessions
    ensures MapOk(st', u)
  {
    assert ThreadOk(st, t);
    if u in st.sessions { assert MapOk(st, u); }
  }

  lemma SwappedEntry(st: State, t: Tid, st': State, x: Tid, c: ConnId)
    requires Inv(st) && Swapped(st, t, st') && x in st'.sess && c in st'.sess[x].pending
    ensures EntryOk(st', x, c)
  {
    assert ThreadOk(st, t);
    assert x in st.sess && st'.sess[x] == st.sess[x];
    assert EntryOk(st, x, c);
    assert ChanOk(st, st.sess[x].pending[c]);
  }

  lemma SwappedChan(st: State, t: Tid, st': State, p: Tid)
    requires Inv(st) && Swapped(st, t, st') && p in st.chans
    ensures ChanOk(st', p) && (Distinct(st) ==> Registrable(st', p))
  {
    assert ThreadOk(st, t) && ChanOk(st, p);
    assert Distinct(st) ==> Registrable(st, p);
  }

  lemma SwapLocks(st: State, t: Tid)
    requires LockInv(st) && CanManage(st, t, Swap)
    ensures LockInv(DoManage(st, t, Swap))
  {
    if st.threads[t].pc.op.Create? { CreateLocks(st, t); } else { RemoveLocks(st, t); }
    LockMoveKeeps(st, t, DoManage(st, t, Swap));
  }

  lemma SwapThreads(st: State, t: Tid, st': State)
    requires Inv(st) && Swapped(st, t, st')
    ensures ThreadsOk(st') && SessionsOk(st')
  {
    assert ThreadOk(st, t);
    forall u | u in st'.threads ensures ThreadOk(st', u) { SwappedThread(st, t, st', u); }
    forall x | x in st'.sess ensures SessOk(st', x) { if x in st.sess { SwappedSess(st, t, st', x); } }
    forall u | u in st'.sessions ensures MapOk(st', u) { SwappedMap(st, t, st', u); }
  }

  lemma SwapObjects(st: State, t: Tid, st': State)
    requires Inv(st) && Swapped(st, t, st')
    ensures EntriesOk(st') && ChansOk(st') && WaitersOk(st')
  {
    assert ThreadOk(st, t);
    forall x, c | x in st'.sess && c in st'.sess[x].pending ensures EntryOk(st', x, c) {
      SwappedEntry(st, t, st', x, c);
    }
    forall p | p in st'.chans ensures ChanOk(st', p) && (Distinct(st') ==> Registrable(st', p)) {
      SwappedChan(st, t, st', p);
    }
  }

  lemma SwapKeeps(st: State, t: Tid)
    requires Inv(st) && CanManage(st, t, Swap)
    ensures Inv(DoManage(st, t, Swap))
  {
    SwapLocks(st, t);
    SwapShape(st, t);
    SwapThreads(st, t, DoManage(st, t, Swap));
    SwapObjects(st, t, DoManage(st, t, Swap));
  }

  // a new connection

  lemma SpawnThread(st: State, t: Tid, role: Role, u: Tid)
    requires Inv(st) && CanSpawn(st, t, role) && u in DoSpawn(st, t, role).threads
    ensures ThreadOk(DoSpawn(st, t, role), u)
  {
    if u != t {
      assert ThreadOk(st, u);
    } else {
      assert t in st.chans ==> ChanOk(st, t);
      assert t in st.sess ==> SessOk(st, t);
    }
  }

  lemma SpawnSess(st: State, t: Tid, role: Role, x: Tid)
    requires Inv(st) && CanSpawn(st, t, role) && x in st.sess
    ensures SessOk(DoSpawn(st, t, role), x)
  {
    assert SessOk(st, x);
  }

  lemma SpawnChan(st: State, t: Tid, role: Role, p: Tid)
    requires Inv(st) && CanSpawn(st, t, role) && p in st.chans
    ensures ChanOk(DoSpawn(st, t, role), p)
  {
    assert ChanOk(st, p);
  }

  lemma SpawnKeeps(st: State, t: Tid, role: Role)
    requires Inv(st) && CanSpawn(st, t, role)
    ensures Inv(DoSpawn(st, t, role))
  {
    var st' := DoSpawn(st, t, role);
    SpawnLocks(st, t, role);
    forall u | u in st'.threads ensures ThreadOk(st', u) { SpawnThread(st, t, role, u); }
    forall x | x in st'.sess ensures SessOk(st', x) { SpawnSess(st, t, role, x); }
    forall p | p in st'.chans ensures ChanOk(st', p) { SpawnChan(st, t, role, p); }
    forall u | u in st'.sessions ensures MapOk(st', u) { assert MapOk(st, u); }
    forall x, c | x in st'.sess && c in st'.sess[x].pending ensures EntryOk(st', x, c) { assert EntryOk(st, x, c); }
    forall q | q in st'.chans && Distinct(st') ensures Registrable(st', q) {
      assert Registrable(st, q) && ChanOk(st, q);
    }
  }

  // ------------------------------------------------------- every step

  lemma RouteKeeps(st: State, t: Tid, a: RouteStep)
    requires Inv(st) && CanRoute(st, t, a)
    ensures Inv(DoRoute(st, t, a))
  {
    OwnShare(st, t);
    match a {
      case PlayerRLock => PlayerRLockMove(st, t);
      case Find(s) => FindMove(st, t, s);
      case NoSession => NoSessionMove(st, t);
      case Notify(c) => NotifyMove(st, t, c);
      case NotifyFails => NotifyFailsMove(st, t);
    }
    QuietlyKeeps(st, t, DoRoute(st, t, a));
  }

  lemma SelectKeeps(st: State, t: Tid, a: SelectStep)
    requires Inv(st) && CanSelect(st, t, a)
    ensures Inv(DoSelect(st, t, a))
  {
    OwnShare(st, t);
    match a {
      case Receive =>
        if st.chans[t].sends == [] {
          ReceiveClosedMove(st, t);
          QuietlyKeeps(st, t, DoSelect(st, t, a));
        } else {
          ReceiveKeeps(st, t);
        }
      case Timeout =>
        TimeoutMove(st, t);
        QuietlyKeeps(st, t, DoSelect(st, t, a));
      case LockToDelete =>
        LockToDeleteMove(st, t);
        QuietlyKeeps(st, t, DoSelect(st, t, a));
      case Delete => DeleteKeeps(st, t);
    }
  }

  lemma RegisterKeeps(st: State, t: Tid, a: RegisterStep)
    requires Inv(st) && CanRegister(st, t, a)
    ensures Inv(DoRegister(st, t, a))
  {
    match a {
      case LockToAdd =>
        OwnShare(st, t);
        LockToAddMove(st, t);
        QuietlyKeeps(st, t, DoRegister(st, t, a));
      case Insert => InsertKeeps(st, t);
    }
  }

  lemma BridgeKeeps(st: State, t: Tid, a: BridgeStep)
    requires Inv(st) && CanBridge(st, t, a)
    ensures Inv(DoBridge(st, t, a))
  {
    match a {
      case Replay(ok) =>
        if ok {
          OwnShare(st, t);
          ReplayOkMove(st, t);
          QuietlyKeeps(st, t, DoBridge(st, t, a));
        } else {
          GiveBackKeeps(st, t, ReplayFailed);
        }
      case Finish => GiveBackKeeps(st, t, BridgeOver);
    }
  }

  lemma ScanKeeps(st: State, t: Tid, a: ScanStep)
    requires Inv(st) && CanScan(st, t, a)
    ensures Inv(DoScan(st, t, a))
  {
    OwnShare(st, t);
    match a {
      case DataRLock => DataRLockMove(st, t);
      case VisitNext(s) => VisitNextMove(st, t, s);
      case NoneLeft => NoneLeftMove(st, t);
      case DataRUnlock => DataRUnlockMove(st, t);
      case CloseMissed => CloseMissedMove(st, t);
    }
    QuietlyKeeps(st, t, DoScan(st, t, a));
  }

  lemma LookKeeps(st: State, t: Tid, a: LookStep)
    requires Inv(st) && CanLook(st, t, a)
    ensures Inv(DoLook(st, t, a))
  {
    OwnShare(st, t);
    match a {
      case LockToLook => LockToLookMove(st, t);
      case Look =>
        var x := st.sess[st.threads[t].pc.s];
        if st.threads[t].role.cid !in x.pending { LookPassesMove(st, t); }
        else if x.token != st.threads[t].role.token { LookRefusesMove(st, t); }
        else { LookMatchesMove(st, t); }
    }
    QuietlyKeeps(st, t, DoLook(st, t, a));
  }

  lemma ResolveKeeps(st: State, t: Tid, a: ResolveStep)
    requires Inv(st) && CanResolve(st, t, a)
    ensures Inv(DoResolve(st, t, a))
  {
    OwnShare(st, t);
    match a {
      case LockToTake =>
        LockToTakeMove(st, t);
        QuietlyKeeps(st, t, DoResolve(st, t, a));
      case Take =>
        if st.threads[t].role.cid in st.sess[st.threads[t].pc.s].pending {
          TakeKeeps(st, t);
        } else {
          TakeNothingMove(st, t);
          QuietlyKeeps(st, t, DoResolve(st, t, a));
        }
      case Send => SendKeeps(st, t);
    }
  }

  lemma ManageKeeps(st: State, t: Tid, a: ManageStep)
    requires Inv(st) && CanManage(st, t, a)
    ensures Inv(DoManage(st, t, a))
  {
    if a.Swap? {
      SwapKeeps(st, t);
    } else {
      OwnShare(st, t);
      match a {
        case Announce => AnnounceMove(st, t);
        case Acquire => AcquireMove(st, t);
        case Pick => PickMove(st, t);
        case Exit => ExitMove(st, t);
      }
      QuietlyKeeps(st, t, DoManage(st, t, a));
    }
  }

  lemma CloseKeeps(st: State, t: Tid, a: CloseStep)
    requires Inv(st) && CanClose(st, t, a)
    ensures Inv(DoClose(st, t, a))
  {
    match a {
      case LockToClose =>
        OwnShare(st, t);
        LockToCloseMove(st, t);
        QuietlyKeeps(st, t, DoClose(st, t, a));
      case CloseAll => CloseAllKeeps(st, t);
    }
  }

  lemma SampleKeeps(st: State, t: Tid, a: SampleStep)
    requires Inv(st) && CanSample(st, t, a)
    ensures Inv(DoSample(st, t, a))
  {
    OwnShare(st, t);
    MappedExist(st);
    match a {
      case StatsRLock => StatsRLockMove(st, t);
      case Visit(s) => VisitMove(st, t, s);
      case LockToSample => LockToSampleMove(st, t);
      case Sample => SampleMove(st, t);
      case StatsRUnlock => StatsRUnlockMove(st, t);
    }
    QuietlyKeeps(st, t, DoSample(st, t, a));
  }

  lemma StepKeepsInv(st: State, t: Tid, a: Action)
    requires Inv(st) && Can(st, t, a)
    ensures Inv(Do(st, t, a))
  {
    match a {
      case Spawn(role) => SpawnKeeps(st, t, role);
      case Route(x) => RouteKeeps(st, t, x);
      case Register(x) => RegisterKeeps(st, t, x);
      case Select(x) => SelectKeeps(st, t, x);
      case Bridge(x) => BridgeKeeps(st, t, x);
      case Scan(x) => ScanKeeps(st, t, x);
      case LookUp(x) => LookKeeps(st, t, x);
      case Resolve(x) => ResolveKeeps(st, t, x);
      case Manage(x) => ManageKeeps(st, t, x);
      case Close(x) => CloseKeeps(st, t, x);
      case Stat(x) => SampleKeeps(st, t, x);
    }
  }

  lemma ContinuesKeepsInv(run: seq<State>, st: State, i: nat)
    requires Inv(st) && Continues(run, st) && i < |run|
    ensures Inv(run[i])
  {
    for j := 0 to i
      invariant Inv(run[j])
    {
      StepAtKeepsInv(run, st, j + 1);
    }
  }

  lemma StepAtKeepsInv(run: seq<State>, st: State, i: nat)
    requires Continues(run, st) && 0 < i < |run| && Inv(run[i - 1])
    ensures Inv(run[i])
  {
    assert StepAt(run, i);
    var t, a :| Can(run[i - 1], t, a) && Do(run[i - 1], t, a) == run[i];
    StepKeepsInv(run[i - 1], t, a);
  }

  /** The invariant holds in every state of every run. */
  lemma RunKeepsInv(run: seq<State>, i: nat)
    requires IsRun(run) && i < |run|
    ensures Inv(run[i])
  {
    InitInv(run[0]);
    ContinuesKeepsInv(run, run[0], i);
  }

  lemma ReachableInv(st: State)
    requires Reachable(st)
    ensures Inv(st)
  {
    var run :| IsRun(run) && run[|run| - 1] == st;
    RunKeepsInv(run, |run| - 1);
  }
}
