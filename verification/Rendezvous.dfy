/** The rendezvous protocol of the relay as a transition system.

    Players, data connections, control loops and the statistics loop are
    threads with explicit program counters. One step is one lock acquisition,
    one critical section body with its unlock, one channel operation or one
    network call. Any number of threads, sessions and conn_ids, in any
    interleaving.

    Objects are named by the thread that makes them, which makes each at most
    once: a session by its control handler, a pending channel by its player
    handler, a data connection by its CONN_READY handler. */
module Rendezvous {
  import opened Wrappers
  import opened Bytes

  type Tid = int
  type ConnId = string

  // ---------------------------------------------------------------- state

  /** One Session object; `closes` counts the calls of Close. */
  datatype Sess = Sess(user: string, sub: string, token: string,
                       pending: map<ConnId, Tid>, closes: nat)

  /** One channel of capacity one, with its history: `sends` and `closes` are
      all the events it ever received, `taken` says whether the value was
      received, `sender` is the handler that took its entry out of the map and
      `late` whether the session was already closed at registration. */
  datatype Chan = Chan(sess: Tid, cid: ConnId, late: bool, sender: Option<Tid>,
                       sends: seq<Tid>, closes: nat, taken: bool)

  /** What a thread was started with. */
  datatype Role =
    | Player(input: seq<Byte>, sub: Option<string>)
    | Data(cid: ConnId, token: string)
    | Control(user: string, subdomain: string, auth: string)
    | Stats

  datatype Ending =
    | Rejected | NotifyFailed | SessionClosed
    | TimedOut(s: Tid, c: ConnId, removedOwn: bool)
    | ReplayFailed | BridgeOver

  datatype Outcome = Delivered(p: Tid) | Refused | NotFound

  datatype Op = Create | Remove

  datatype Pc =
    // handlePlayerConnection and WaitForDataConn
    | PLookup                        // wants SessionManager.mu for reading
    | PScan                          // holds it
    | PNotify(s: Tid)                // about to send NEW_CONN
    | PRegister(s: Tid, c: ConnId)   // wants s.mu in AddPendingConn
    | PInsert(s: Tid, c: ConnId)     // holds it
    | PWait(s: Tid, c: ConnId)       // in the select
    | PExpire(s: Tid, c: ConnId)     // timer chosen, wants s.mu
    | PDelete(s: Tid, c: ConnId)     // holds it
    | PReplay(s: Tid, c: ConnId, d: Tid)
    | PBridge(s: Tid, c: ConnId, d: Tid)
    | PEnd(why: Ending)
    // handleConnReady
    | DLock                          // wants SessionManager.mu for reading
    | DScan(todo: set<Tid>)          // holds it, sessions still to visit
    | DCheck(s: Tid, todo: set<Tid>) // wants s.mu
    | DLook(s: Tid, todo: set<Tid>)  // holds it
    | DResolve(s: Tid)               // token matched, wants s.mu again
    | DTake(s: Tid)                  // holds it
    | DSend(s: Tid, ch: Tid)         // about to send on the channel
    | DUnlock(out: Outcome)          // about to release the read lock
    | DMiss                          // released, conn still to be closed
    | DEnd(out: Outcome)
    // handleAuth, CreateSession, controlLoop, RemoveSession
    | CAnnounce(op: Op)              // wants SessionManager.mu for writing
    | CDrain(op: Op)                 // announced, waits for readers to leave
    | CHeld(op: Op)                  // holds it
    | CClose(op: Op, s: Tid)         // wants s.mu in Close
    | CClosing(op: Op, s: Tid)       // holds it
    | CSwap(op: Op, kicked: Option<Tid>) // about to update the map and unlock
    | CRun                           // AUTH_OK write and control loop
    | CEnd
    // statsLoop
    | SIdle
    | SScan(todo: set<Tid>)
    | SLock(s: Tid, todo: set<Tid>)
    | SSample(s: Tid, todo: set<Tid>)

  datatype Thread = Thread(role: Role, pc: Pc)

  /** `route` is what parseMinecraftHandshake and extractSubdomain make of the
      bytes of a player connection, for the configured domain.
      `writer` is the thread that announced or holds the write side of
      SessionManager.mu (an announced writer already keeps new readers out),
      `readers` the holders of the read side, `mus` the holders of the session
      mutexes. `closedConns` are the data connections closed so far; `panicked`
      records a send on a closed channel or a second close. */
  datatype State = State(
    route: seq<Byte> -> Option<string>,
    threads: map<Tid, Thread>,
    sessions: map<string, Tid>,
    sess: map<Tid, Sess>,
    chans: map<Tid, Chan>,
    writer: Option<Tid>,
    readers: set<Tid>,
    mus: map<Tid, Tid>,
    closedConns: set<Tid>,
    panicked: bool)

  // ---------------------------------------- the updates of shared objects

  /** AddPendingConn: the entry at `c` is overwritten if there is one. */
  function Registered(x: Sess, c: ConnId, ch: Tid): Sess {
    x.(pending := x.pending[c := ch])
  }

  /** The deletion in ResolvePendingConn and in the timeout branch. */
  function Dropped(x: Sess, c: ConnId): Sess {
    x.(pending := x.pending - {c})
  }

  /** Close empties the map. */
  function Closed(x: Sess): Sess {
    x.(pending := map[], closes := x.closes + 1)
  }

  /** Every channel named in `ps` is closed once. */
  function CloseChans(chans: map<Tid, Chan>, ps: set<Tid>): map<Tid, Chan> {
    map p | p in chans :: if p in ps then chans[p].(closes := chans[p].closes + 1) else chans[p]
  }

  /** Closing the channels of `x` one by one would close some channel twice. */
  ghost predicate DoubleClose(x: Sess, chans: map<Tid, Chan>) {
    || (exists c :: c in x.pending && x.pending[c] in chans && chans[x.pending[c]].closes > 0)
    || (exists c, c' :: c in x.pending && c' in x.pending && c != c' && x.pending[c] == x.pending[c'])
  }

  // ---------------------------------------------------------------- steps

  /** handlePlayerConnection up to NEW_CONN. */
  datatype RouteStep = PlayerRLock | Find(s: Tid) | NoSession | Notify(c: ConnId) | NotifyFails
  /** AddPendingConn. */
  datatype RegisterStep = LockToAdd | Insert
  /** The select of WaitForDataConn. */
  datatype SelectStep = Receive | Timeout | LockToDelete | Delete
  /** The rest of handlePlayerConnection, and bridgeConnections. */
  datatype BridgeStep = Replay(ok: bool) | Finish
  /** handleConnReady outside the session mutex. */
  datatype ScanStep = DataRLock | VisitNext(s: Tid) | NoneLeft | DataRUnlock | CloseMissed
  /** handleConnReady looking for the conn_id in one session. */
  datatype LookStep = LockToLook | Look
  /** ResolvePendingConn. */
  datatype ResolveStep = LockToTake | Take | Send
  /** CreateSession, RemoveSession and the end of controlLoop. */
  datatype ManageStep = Announce | Acquire | Pick | Swap | Exit
  /** Session.Close, called with SessionManager.mu held. */
  datatype CloseStep = LockToClose | CloseAll
  /** statsLoop. */
  datatype SampleStep = StatsRLock | Visit(s: Tid) | LockToSample | Sample | StatsRUnlock

  datatype Action =
    | Spawn(role: Role)
    | Route(route: RouteStep)
    | Register(register: RegisterStep)
    | Select(sel: SelectStep)
    | Bridge(bridge: BridgeStep)
    | Scan(scan: ScanStep)
    | LookUp(look: LookStep)
    | Resolve(resolve: ResolveStep)
    | Manage(manage: ManageStep)
    | Close(close: CloseStep)
    | Stat(sample: SampleStep)

  predicate Free(st: State, s: Tid) {
    s in st.sess && s !in st.mus
  }

  /** The one-slot buffer has room. */
  predicate SlotFree(ch: Chan) {
    ch.sends == [] || (ch.taken && |ch.sends| == 1)
  }

  function Goto(st: State, t: Tid, pc: Pc): State
    requires t in st.threads
  {
    st.(threads := st.threads[t := st.threads[t].(pc := pc)])
  }

  /** `t` takes the mutex of session `s`. */
  function Lock(st: State, t: Tid, s: Tid): State {
    st.(mus := st.mus[s := t])
  }

  function Unlock(st: State, s: Tid): State {
    st.(mus := st.mus - {s})
  }

  function RLock(st: State, t: Tid): State {
    st.(readers := st.readers + {t})
  }

  function RUnlock(st: State, t: Tid): State {
    st.(readers := st.readers - {t})
  }

  function SetSess(st: State, s: Tid, x: Sess): State {
    st.(sess := st.sess[s := x])
  }

  function CloseConn(st: State, d: Tid): State {
    st.(closedConns := st.closedConns + {d})
  }

  predicate IsPlayer(st: State, t: Tid) {
    t in st.threads && st.threads[t].role.Player?
  }

  predicate IsData(st: State, t: Tid) {
    t in st.threads && st.threads[t].role.Data?
  }

  predicate IsControl(st: State, t: Tid) {
    t in st.threads && st.threads[t].role.Control?
  }

  predicate IsStats(st: State, t: Tid) {
    t in st.threads && st.threads[t].role.Stats?
  }

  // handlePlayerConnection: find the session, then send NEW_CONN

  predicate CanRoute(st: State, t: Tid, a: RouteStep) {
    IsPlayer(st, t) &&
    var pc := st.threads[t].pc;
    var sub := st.threads[t].role.sub;
    match a
    case PlayerRLock => pc.PLookup? && st.writer == None
    case Find(s) => pc.PScan? && s in st.sessions.Values && s in st.sess && sub == Some(st.sess[s].sub)
    case NoSession =>
      pc.PScan? && (forall s | s in st.sessions.Values && s in st.sess :: sub != Some(st.sess[s].sub))
    case Notify(c) => pc.PNotify?
    case NotifyFails => pc.PNotify?
  }

  function DoRoute(st: State, t: Tid, a: RouteStep): State
    requires CanRoute(st, t, a)
  {
    match a
    case PlayerRLock => RLock(Goto(st, t, PScan), t)
    case Find(s) => RUnlock(Goto(st, t, PNotify(s)), t)
    case NoSession => RUnlock(Goto(st, t, PEnd(Rejected)), t)
    case Notify(c) => Goto(st, t, PRegister(st.threads[t].pc.s, c))
    case NotifyFails => Goto(st, t, PEnd(NotifyFailed))
  }

  // AddPendingConn

  predicate CanRegister(st: State, t: Tid, a: RegisterStep) {
    IsPlayer(st, t) &&
    var pc := st.threads[t].pc;
    match a
    case LockToAdd => pc.PRegister? && Free(st, pc.s)
    case Insert => pc.PInsert? && pc.s in st.sess
  }

  function DoRegister(st: State, t: Tid, a: RegisterStep): State
    requires CanRegister(st, t, a)
  {
    var pc := st.threads[t].pc;
    match a
    case LockToAdd => Lock(Goto(st, t, PInsert(pc.s, pc.c)), t, pc.s)
    case Insert =>
      var x := st.sess[pc.s];
      SetSess(Unlock(Goto(st, t, PWait(pc.s, pc.c)), pc.s), pc.s, Registered(x, pc.c, t))
      .(chans := st.chans[t := Chan(pc.s, pc.c, x.closes > 0, None, [], 0, false)])
  }

  // the select of WaitForDataConn; a buffered value is received before a
  // close is noticed, and the timer may be chosen at any time

  predicate CanSelect(st: State, t: Tid, a: SelectStep) {
    IsPlayer(st, t) &&
    var pc := st.threads[t].pc;
    match a
    case Receive => pc.PWait? && t in st.chans && (st.chans[t].sends != [] || st.chans[t].closes > 0)
    case Timeout => pc.PWait?
    case LockToDelete => pc.PExpire? && Free(st, pc.s)
    case Delete => pc.PDelete? && pc.s in st.sess
  }

  function DoSelect(st: State, t: Tid, a: SelectStep): State
    requires CanSelect(st, t, a)
  {
    var pc := st.threads[t].pc;
    match a
    case Receive =>
      var ch := st.chans[t];
      if ch.sends != [] && !ch.taken then
        Goto(st, t, PReplay(pc.s, pc.c, ch.sends[0])).(chans := st.chans[t := ch.(taken := true)])
      else
        Goto(st, t, PEnd(SessionClosed))
    case Timeout => Goto(st, t, PExpire(pc.s, pc.c))
    case LockToDelete => Lock(Goto(st, t, PDelete(pc.s, pc.c)), t, pc.s)
    case Delete =>
      var x := st.sess[pc.s];
      var own := pc.c in x.pending && x.pending[pc.c] == t;
      SetSess(Unlock(Goto(st, t, PEnd(TimedOut(pc.s, pc.c, own))), pc.s), pc.s, Dropped(x, pc.c))
  }

  // the handshake is replayed on the data connection, then bytes are copied

  predicate CanBridge(st: State, t: Tid, a: BridgeStep) {
    IsPlayer(st, t) &&
    match a
    case Replay(ok) => st.threads[t].pc.PReplay?
    case Finish => st.threads[t].pc.PBridge?
  }

  function DoBridge(st: State, t: Tid, a: BridgeStep): State
    requires CanBridge(st, t, a)
  {
    var pc := st.threads[t].pc;
    match a
    case Replay(ok) =>
      if ok then Goto(st, t, PBridge(pc.s, pc.c, pc.d))
      else CloseConn(Goto(st, t, PEnd(ReplayFailed)), pc.d)
    case Finish => CloseConn(Goto(st, t, PEnd(BridgeOver)), pc.d)
  }

  // handleConnReady: visit every mapped session in any order

  predicate CanScan(st: State, t: Tid, a: ScanStep) {
    IsData(st, t) &&
    var pc := st.threads[t].pc;
    match a
    case DataRLock => pc.DLock? && st.writer == None
    case VisitNext(s) => pc.DScan? && s in pc.todo
    case NoneLeft => pc.DScan? && pc.todo == {}
    case DataRUnlock => pc.DUnlock?
    case CloseMissed => pc.DMiss?
  }

  function DoScan(st: State, t: Tid, a: ScanStep): State
    requires CanScan(st, t, a)
  {
    var pc := st.threads[t].pc;
    match a
    case DataRLock => RLock(Goto(st, t, DScan(st.sessions.Values)), t)
    case VisitNext(s) => Goto(st, t, DCheck(s, pc.todo - {s}))
    case NoneLeft => Goto(st, t, DUnlock(NotFound))
    case DataRUnlock => RUnlock(Goto(st, t, if pc.out.NotFound? then DMiss else DEnd(pc.out)), t)
    case CloseMissed => CloseConn(Goto(st, t, DEnd(NotFound)), t)
  }

  predicate CanLook(st: State, t: Tid, a: LookStep) {
    IsData(st, t) &&
    var pc := st.threads[t].pc;
    match a
    case LockToLook => pc.DCheck? && Free(st, pc.s)
    case Look => pc.DLook? && pc.s in st.sess
  }

  function DoLook(st: State, t: Tid, a: LookStep): State
    requires CanLook(st, t, a)
  {
    var pc := st.threads[t].pc;
    var role := st.threads[t].role;
    match a
    case LockToLook => Lock(Goto(st, t, DLook(pc.s, pc.todo)), t, pc.s)
    case Look =>
      if role.cid !in st.sess[pc.s].pending then Unlock(Goto(st, t, DScan(pc.todo)), pc.s)
      else if st.sess[pc.s].token != role.token then CloseConn(Unlock(Goto(st, t, DUnlock(Refused)), pc.s), t)
      else Unlock(Goto(st, t, DResolve(pc.s)), pc.s)
  }

  // ResolvePendingConn, called under the read lock of the manager

  predicate CanResolve(st: State, t: Tid, a: ResolveStep) {
    IsData(st, t) &&
    var pc := st.threads[t].pc;
    match a
    case LockToTake => pc.DResolve? && Free(st, pc.s)
    case Take => pc.DTake? && pc.s in st.sess
    case Send => pc.DSend? && pc.ch in st.chans && SlotFree(st.chans[pc.ch])
  }

  function DoResolve(st: State, t: Tid, a: ResolveStep): State
    requires CanResolve(st, t, a)
  {
    var pc := st.threads[t].pc;
    match a
    case LockToTake => Lock(Goto(st, t, DTake(pc.s)), t, pc.s)
    case Take => DoTake(st, t, pc.s, st.threads[t].role.cid)
    case Send =>
      var ch := st.chans[pc.ch];
      if ch.closes > 0 then st.(panicked := true)
      else Goto(st, t, DUnlock(Delivered(pc.ch))).(chans := st.chans[pc.ch := ch.(sends := ch.sends + [t])])
  }

  function DoTake(st: State, t: Tid, s: Tid, c: ConnId): State
    requires t in st.threads && s in st.sess
  {
    var x := st.sess[s];
    if c !in x.pending then CloseConn(Unlock(Goto(st, t, DUnlock(Refused)), s), t)
    else
      var p := x.pending[c];
      SetSess(Unlock(Goto(st, t, DSend(s, p)), s), s, Dropped(x, c))
      .(chans := if p in st.chans then st.chans[p := st.chans[p].(sender := Some(t))] else st.chans)
  }

  // CreateSession and RemoveSession; the control loop may end at any time

  predicate CanManage(st: State, t: Tid, a: ManageStep) {
    IsControl(st, t) &&
    var pc := st.threads[t].pc;
    match a
    case Announce => pc.CAnnounce? && st.writer == None
    case Acquire => pc.CDrain? && st.readers == {}
    case Pick => pc.CHeld?
    case Swap => pc.CSwap?
    case Exit => pc.CRun?
  }

  function DoManage(st: State, t: Tid, a: ManageStep): State
    requires CanManage(st, t, a)
  {
    var pc := st.threads[t].pc;
    match a
    case Announce => Goto(st, t, CDrain(pc.op)).(writer := Some(t))
    case Acquire => Goto(st, t, CHeld(pc.op))
    case Pick =>
      var user := st.threads[t].role.user;
      Goto(st, t, if user in st.sessions then CClose(pc.op, st.sessions[user]) else CSwap(pc.op, None))
    case Swap => if pc.op.Create? then DoCreate(st, t) else DoRemove(st, t)
    case Exit => Goto(st, t, CAnnounce(Remove))
  }

  function DoCreate(st: State, t: Tid): State
    requires IsControl(st, t)
  {
    var role := st.threads[t].role;
    SetSess(Goto(st, t, CRun), t, Sess(role.user, role.subdomain, role.auth, map[], 0))
    .(sessions := st.sessions[role.user := t], writer := None)
  }

  function DoRemove(st: State, t: Tid): State
    requires IsControl(st, t)
  {
    Goto(st, t, CEnd).(sessions := st.sessions - {st.threads[t].role.user}, writer := None)
  }

  // Session.Close

  predicate CanClose(st: State, t: Tid, a: CloseStep) {
    IsControl(st, t) &&
    var pc := st.threads[t].pc;
    match a
    case LockToClose => pc.CClose? && Free(st, pc.s)
    case CloseAll => pc.CClosing? && pc.s in st.sess
  }

  ghost function DoClose(st: State, t: Tid, a: CloseStep): State
    requires CanClose(st, t, a)
  {
    var pc := st.threads[t].pc;
    match a
    case LockToClose => Lock(Goto(st, t, CClosing(pc.op, pc.s)), t, pc.s)
    case CloseAll =>
      var x := st.sess[pc.s];
      SetSess(Unlock(Goto(st, t, CSwap(pc.op, Some(pc.s))), pc.s), pc.s, Closed(x))
      .(chans := CloseChans(st.chans, x.pending.Values),
        panicked := st.panicked || DoubleClose(x, st.chans))
  }

  // statsLoop

  predicate CanSample(st: State, t: Tid, a: SampleStep) {
    IsStats(st, t) &&
    var pc := st.threads[t].pc;
    match a
    case StatsRLock => pc.SIdle? && st.writer == None
    case Visit(s) => pc.SScan? && s in pc.todo
    case LockToSample => pc.SLock? && Free(st, pc.s)
    case Sample => pc.SSample?
    case StatsRUnlock => pc.SScan? && pc.todo == {}
  }

  function DoSample(st: State, t: Tid, a: SampleStep): State
    requires CanSample(st, t, a)
  {
    var pc := st.threads[t].pc;
    match a
    case StatsRLock => RLock(Goto(st, t, SScan(st.sessions.Values)), t)
    case Visit(s) => Goto(st, t, SLock(s, pc.todo - {s}))
    case LockToSample => Lock(Goto(st, t, SSample(pc.s, pc.todo)), t, pc.s)
    case Sample => Unlock(Goto(st, t, SScan(pc.todo)), pc.s)
    case StatsRUnlock => RUnlock(Goto(st, t, SIdle), t)
  }

  // a new connection is accepted

  predicate CanSpawn(st: State, t: Tid, role: Role) {
    t !in st.threads && (role.Player? ==> role.sub == st.route(role.input))
  }

  function StartPc(role: Role): Pc {
    match role
    case Player(_, sub) => if sub == None then PEnd(Rejected) else PLookup
    case Data(_, _) => DLock
    case Control(_, _, _) => CAnnounce(Create)
    case Stats => SIdle
  }

  function DoSpawn(st: State, t: Tid, role: Role): State {
    st.(threads := st.threads[t := Thread(role, StartPc(role))])
  }

  /** When thread `t` may take step `a`. */
  predicate Can(st: State, t: Tid, a: Action) {
    match a
    case Spawn(role) => CanSpawn(st, t, role)
    case Route(x) => CanRoute(st, t, x)
    case Register(x) => CanRegister(st, t, x)
    case Select(x) => CanSelect(st, t, x)
    case Bridge(x) => CanBridge(st, t, x)
    case Scan(x) => CanScan(st, t, x)
    case LookUp(x) => CanLook(st, t, x)
    case Resolve(x) => CanResolve(st, t, x)
    case Manage(x) => CanManage(st, t, x)
    case Close(x) => CanClose(st, t, x)
    case Stat(x) => CanSample(st, t, x)
  }

  /** The state after thread `t` takes step `a`. */
  ghost function Do(st: State, t: Tid, a: Action): State
    requires Can(st, t, a)
  {
    match a
    case Spawn(role) => DoSpawn(st, t, role)
    case Route(x) => DoRoute(st, t, x)
    case Register(x) => DoRegister(st, t, x)
    case Select(x) => DoSelect(st, t, x)
    case Bridge(x) => DoBridge(st, t, x)
    case Scan(x) => DoScan(st, t, x)
    case LookUp(x) => DoLook(st, t, x)
    case Resolve(x) => DoResolve(st, t, x)
    case Manage(x) => DoManage(st, t, x)
    case Close(x) => DoClose(st, t, x)
    case Stat(x) => DoSample(st, t, x)
  }

  ghost predicate Init(st: State) {
    && st.threads == map[] && st.sessions == map[] && st.sess == map[] && st.chans == map[]
    && st.writer == None && st.readers == {} && st.mus == map[] && st.closedConns == {} && !st.panicked
  }

  ghost predicate Next(st: State, st': State) {
    exists t, a :: Can(st, t, a) && Do(st, t, a) == st'
  }

  /** A panic ends the process. */
  ghost predicate StepAt(run: seq<State>, i: nat)
    requires 0 < i < |run|
  {
    !run[i - 1].panicked && Next(run[i - 1], run[i])
  }

  /** `run` goes on from `st`. */
  ghost predicate Continues(run: seq<State>, st: State) {
    |run| > 0 && run[0] == st && forall i | 0 < i < |run| :: StepAt(run, i)
  }

  ghost predicate IsRun(run: seq<State>) {
    |run| > 0 && Init(run[0]) && Continues(run, run[0])
  }

  ghost predicate Reachable(st: State) {
    exists run :: IsRun(run) && run[|run| - 1] == st
  }
}
