/** Service of one player, step by step from any state in which no lock is held,
    how a player handler ends, and what a tick of the statistics loop visits. */
module Service {
  import opened Wrappers
  import opened Rendezvous
  import opened RendezvousInvariant
  import opened RendezvousSteps
  import opened RendezvousProperties
  import opened Stranding

  ghost predicate LeadsTo(from: State, st: State) {
    exists run :: Continues(run, from) && run[|run| - 1] == st
  }

  lemma LeadsNowhere(st: State)
    ensures LeadsTo(st, st)
  {
    assert Continues([st], st);
  }

  lemma Then(from: State, mid: State, t: Tid, a: Action) returns (st: State)
    requires LeadsTo(from, mid) && !mid.panicked && Can(mid, t, a)
    ensures LeadsTo(from, st) && st == Do(mid, t, a)
  {
    var run :| Continues(run, from) && run[|run| - 1] == mid;
    st := Do(mid, t, a);
    var more := run + [st];
    assert Next(mid, st);
    forall i | 0 < i < |more| ensures StepAt(more, i) {
      if i < |run| { assert StepAt(run, i); }
    }
    assert Continues(more, from);
  }

  // One step of each kind.

  lemma ThenRoute(from: State, mid: State, t: Tid, a: RouteStep) returns (st: State)
    requires LeadsTo(from, mid) && !mid.panicked && CanRoute(mid, t, a)
    ensures LeadsTo(from, st) && st == DoRoute(mid, t, a)
  {
    st := Then(from, mid, t, Route(a));
  }

  lemma ThenRegister(from: State, mid: State, t: Tid, a: RegisterStep) returns (st: State)
    requires LeadsTo(from, mid) && !mid.panicked && CanRegister(mid, t, a)
    ensures LeadsTo(from, st) && st == DoRegister(mid, t, a)
  {
    st := Then(from, mid, t, Register(a));
  }

  lemma ThenSelect(from: State, mid: State, t: Tid, a: SelectStep) returns (st: State)
    requires LeadsTo(from, mid) && !mid.panicked && CanSelect(mid, t, a)
    ensures LeadsTo(from, st) && st == DoSelect(mid, t, a)
  {
    st := Then(from, mid, t, Select(a));
  }

  lemma ThenBridge(from: State, mid: State, t: Tid, a: BridgeStep) returns (st: State)
    requires LeadsTo(from, mid) && !mid.panicked && CanBridge(mid, t, a)
    ensures LeadsTo(from, st) && st == DoBridge(mid, t, a)
  {
    st := Then(from, mid, t, Bridge(a));
  }

  lemma ThenScan(from: State, mid: State, t: Tid, a: ScanStep) returns (st: State)
    requires LeadsTo(from, mid) && !mid.panicked && CanScan(mid, t, a)
    ensures LeadsTo(from, st) && st == DoScan(mid, t, a)
  {
    st := Then(from, mid, t, Scan(a));
  }

  lemma ThenLookUp(from: State, mid: State, t: Tid, a: LookStep) returns (st: State)
    requires LeadsTo(from, mid) && !mid.panicked && CanLook(mid, t, a)
    ensures LeadsTo(from, st) && st == DoLook(mid, t, a)
  {
    st := Then(from, mid, t, LookUp(a));
  }

  lemma ThenResolve(from: State, mid: State, t: Tid, a: ResolveStep) returns (st: State)
    requires LeadsTo(from, mid) && !mid.panicked && CanResolve(mid, t, a)
    ensures LeadsTo(from, st) && st == DoResolve(mid, t, a)
  {
    st := Then(from, mid, t, Resolve(a));
  }

  lemma ThenSpawn(from: State, mid: State, t: Tid, role: Role) returns (st: State)
    requires LeadsTo(from, mid) && !mid.panicked && CanSpawn(mid, t, role)
    ensures LeadsTo(from, st) && st == DoSpawn(mid, t, role)
  {
    st := Then(from, mid, t, Spawn(role));
  }

  // ------------------------------------------------------ a player is served

  /** No lock is held, but for reading by the threads in `readers`. */
  predicate Calm(st: State, readers: set<Tid>) {
    st.writer == None && st.readers == readers && st.mus == map[] && !st.panicked
  }

  predicate IsMapped(st: State, s: Tid) {
    s in st.sess && s in st.sessions.Values
  }

  predicate PlayerAt(st: State, t: Tid, pc: Pc) {
    IsPlayer(st, t) && st.threads[t].pc == pc
  }

  predicate DataAt(st: State, d: Tid, role: Role, pc: Pc) {
    IsData(st, d) && st.threads[d] == Thread(role, pc)
  }

  /** The sessions and channels are the same, and so are the threads but for `t`. */
  predicate Otherwise(st: State, st': State, t: Tid) {
    st'.sessions == st.sessions && st'.sess == st.sess && st'.chans == st.chans
    && st'.threads.Keys == st.threads.Keys && forall u | u in st.threads && u != t :: st'.threads[u] == st.threads[u]
  }

  lemma PlayerLooksUp(from: State, st: State, t: Tid, s: Tid) returns (st': State)
    requires LeadsTo(from, st) && Calm(st, {}) && PlayerAt(st, t, PLookup) && IsMapped(st, s)
    requires st.threads[t].role.sub == Some(st.sess[s].sub)
    ensures LeadsTo(from, st') && Calm(st', {}) && PlayerAt(st', t, PNotify(s)) && Otherwise(st, st', t)
  {
    st' := ThenRoute(from, st, t, PlayerRLock);
    st' := ThenRoute(from, st', t, Find(s));
  }

  lemma PlayerIsAnnounced(from: State, st: State, t: Tid, s: Tid, c: ConnId) returns (st': State)
    requires LeadsTo(from, st) && Calm(st, {}) && PlayerAt(st, t, PNotify(s)) && IsMapped(st, s)
    ensures LeadsTo(from, st') && Calm(st', {}) && PlayerAt(st', t, PRegister(s, c)) && Otherwise(st, st', t)
  {
    st' := ThenRoute(from, st, t, Notify(c));
  }

  /** The session and the channel of a player that is registered under `c`. */
  predicate WaitsFor(st: State, t: Tid, s: Tid, c: ConnId) {
    && PlayerAt(st, t, PWait(s, c)) && IsMapped(st, s) && t in st.chans
    && c in st.sess[s].pending && st.sess[s].pending[c] == t
    && st.chans[t].sends == [] && st.chans[t].closes == 0 && !st.chans[t].taken
  }

  lemma PlayerRegisters(from: State, st: State, t: Tid, s: Tid, c: ConnId) returns (st': State)
    requires LeadsTo(from, st) && Calm(st, {}) && PlayerAt(st, t, PRegister(s, c)) && IsMapped(st, s)
    ensures LeadsTo(from, st') && Calm(st', {}) && WaitsFor(st', t, s, c)
    ensures st'.sess[s].token == st.sess[s].token && st'.threads.Keys == st.threads.Keys
  {
    st' := ThenRegister(from, st, t, LockToAdd);
    assert st'.mus - {s} == map[];
    st' := ThenRegister(from, st', t, Insert);
  }

  lemma HandlerComes(from: State, st: State, d: Tid, s: Tid, role: Role, t: Tid) returns (st': State)
    requires LeadsTo(from, st) && Calm(st, {}) && d !in st.threads && role.Data? && WaitsFor(st, t, s, role.cid)
    ensures LeadsTo(from, st') && Calm(st', {d}) && WaitsFor(st', t, s, role.cid)
    ensures st'.sess == st.sess && IsData(st', d) && st'.threads[d].role == role
    ensures st'.threads[d].pc.DCheck? && st'.threads[d].pc.s == s
  {
    st' := ThenSpawn(from, st, d, role);
    st' := ThenScan(from, st', d, DataRLock);
    st' := ThenScan(from, st', d, VisitNext(s));
  }

  lemma HandlerMatches(from: State, st: State, d: Tid, s: Tid, role: Role, t: Tid) returns (st': State)
    requires LeadsTo(from, st) && Calm(st, {d}) && role.Data? && WaitsFor(st, t, s, role.cid)
    requires IsData(st, d) && st.threads[d].role == role && st.threads[d].pc.DCheck? && st.threads[d].pc.s == s
    requires role.token == st.sess[s].token
    ensures LeadsTo(from, st') && Calm(st', {d}) && WaitsFor(st', t, s, role.cid) && DataAt(st', d, role, DResolve(s))
  {
    st' := ThenLookUp(from, st, d, LockToLook);
    assert st'.mus - {s} == map[];
    st' := ThenLookUp(from, st', d, Look);
  }

  lemma HandlerTakes(from: State, st: State, d: Tid, s: Tid, role: Role, t: Tid) returns (st': State)
    requires LeadsTo(from, st) && Calm(st, {d}) && role.Data? && WaitsFor(st, t, s, role.cid)
    requires DataAt(st, d, role, DResolve(s))
    ensures LeadsTo(from, st') && Calm(st', {d}) && DataAt(st', d, role, DSend(s, t))
    ensures PlayerAt(st', t, PWait(s, role.cid)) && t in st'.chans
    ensures st'.chans[t].sends == [] && st'.chans[t].closes == 0 && !st'.chans[t].taken
  {
    st' := ThenResolve(from, st, d, LockToTake);
    assert st'.mus - {s} == map[];
    st' := ThenResolve(from, st', d, Take);
  }

  lemma PlayerReceives(from: State, st: State, d: Tid, s: Tid, role: Role, t: Tid) returns (st': State)
    requires LeadsTo(from, st) && Calm(st, {d}) && role.Data? && DataAt(st, d, role, DSend(s, t))
    requires PlayerAt(st, t, PWait(s, role.cid)) && t in st.chans
    requires st.chans[t].sends == [] && st.chans[t].closes == 0 && !st.chans[t].taken
    ensures LeadsTo(from, st') && PlayerAt(st', t, PBridge(s, role.cid, d))
    ensures DataAt(st', d, role, DUnlock(Delivered(t)))
  {
    st' := ThenResolve(from, st, d, Send);
    st' := ThenSelect(from, st', t, Receive);
    st' := ThenBridge(from, st', t, Replay(true));
  }

  /** From every state in which no lock is held and a player is about to look up its
      subdomain: for every mapped session with that subdomain, every conn_id, also
      one in use, and every new connection that presents this conn_id and the token
      of the session, some run bridges the player to that connection. */
  lemma PlayerCanBeServed(st: State, t: Tid, s: Tid, c: ConnId, d: Tid) returns (st': State)
    requires Calm(st, {}) && PlayerAt(st, t, PLookup) && IsMapped(st, s) && d !in st.threads
    requires st.threads[t].role.sub == Some(st.sess[s].sub)
    ensures LeadsTo(st, st') && PlayerAt(st', t, PBridge(s, c, d))
    ensures d in st'.threads && st'.threads[d] == Thread(Data(c, st.sess[s].token), DUnlock(Delivered(t)))
  {
    var role := Data(c, st.sess[s].token);
    LeadsNowhere(st);
    st' := PlayerLooksUp(st, st, t, s);
    st' := PlayerIsAnnounced(st, st', t, s, c);
    st' := PlayerRegisters(st, st', t, s, c);
    st' := HandlerComes(st, st', d, s, role, t);
    st' := HandlerMatches(st, st', d, s, role, t);
    st' := HandlerTakes(st, st', d, s, role, t);
    st' := PlayerReceives(st, st', d, s, role, t);
  }

  // ----------------------------------------------------- how a player ends

  /** What brought the handler of a player to its end, and in what state it leaves the
      data connection. */
  ghost predicate EndsBecause(st: State, t: Tid, why: Ending, st': State)
    requires IsPlayer(st, t)
  {
    var pc := st.threads[t].pc;
    match why
    case Rejected => pc.PScan? && forall s | Mapped(st, s) :: st.threads[t].role.sub != Some(st.sess[s].sub)
    case NotifyFailed => pc.PNotify?
    case SessionClosed => pc.PWait? && t in st.chans && st.chans[t].closes == 1 && st.chans[t].sends == []
    case TimedOut(s, c, own) => pc == PDelete(s, c) && (own <==> InMap(st, t)) && !InMap(st', t)
    case ReplayFailed => pc.PReplay? && pc.d in st'.closedConns
    case BridgeOver => pc.PBridge? && pc.d in st'.closedConns
  }

  lemma RouteEnds(st: State, t: Tid, a: RouteStep)
    requires CanRoute(st, t, a) && (forall s | Mapped(st, s) :: s in st.sessions.Values)
    ensures var pc := DoRoute(st, t, a).threads[t].pc;
            pc.PEnd? ==> EndsBecause(st, t, pc.why, DoRoute(st, t, a))
  {
  }

  lemma SelectEnds(st: State, t: Tid, a: SelectStep)
    requires CanSelect(st, t, a) && t in st.chans && ChanOk(st, t)
    ensures var pc := DoSelect(st, t, a).threads[t].pc;
            pc.PEnd? ==> EndsBecause(st, t, pc.why, DoSelect(st, t, a))
  {
  }

  lemma BridgeEnds(st: State, t: Tid, a: BridgeStep)
    requires CanBridge(st, t, a)
    ensures var pc := DoBridge(st, t, a).threads[t].pc;
            pc.PEnd? ==> EndsBecause(st, t, pc.why, DoBridge(st, t, a))
  {
  }

  lemma RegisterGoesOn(st: State, t: Tid, a: RegisterStep)
    requires CanRegister(st, t, a)
    ensures !DoRegister(st, t, a).threads[t].pc.PEnd?
  {
  }

  lemma PlayerKinds(st: State, t: Tid, a: Action)
    requires IsPlayer(st, t) && Can(st, t, a)
    ensures a.Route? || a.Register? || a.Select? || a.Bridge?
  {
  }

  lemma MappedAreValues(st: State)
    ensures forall s | Mapped(st, s) :: s in st.sessions.Values
  {
  }

  lemma EndHasCause(st: State, t: Tid, a: Action)
    requires IsPlayer(st, t) && Can(st, t, a) && (Waiting(st.threads[t].pc) ==> t in st.chans && ChanOk(st, t))
    ensures t in Do(st, t, a).threads
    ensures var pc := Do(st, t, a).threads[t].pc;
            pc.PEnd? ==> EndsBecause(st, t, pc.why, Do(st, t, a))
  {
    PlayerKinds(st, t, a);
    if a.Route? {
      MappedAreValues(st);
      RouteEnds(st, t, a.route);
    } else if a.Register? {
      RegisterGoesOn(st, t, a.register);
    } else if a.Select? {
      SelectIsWaiting(st, t, a.sel);
      SelectEnds(st, t, a.sel);
    } else {
      BridgeEnds(st, t, a.bridge);
    }
  }

  lemma SelectIsWaiting(st: State, t: Tid, a: SelectStep)
    requires CanSelect(st, t, a)
    ensures Waiting(st.threads[t].pc)
  {
  }

  lemma WaiterHasChan(st: State, t: Tid)
    requires Inv(st) && IsPlayer(st, t) && Waiting(st.threads[t].pc)
    ensures t in st.chans && ChanOk(st, t)
  {
    OwnShare(st, t);
  }

  /** Every ending of a player handler has its one cause. */
  lemma HowPlayersEnd(st: State, t: Tid, a: Action)
    requires Reachable(st) && IsPlayer(st, t) && Can(st, t, a)
    ensures t in Do(st, t, a).threads
    ensures var pc := Do(st, t, a).threads[t].pc;
            pc.PEnd? ==> EndsBecause(st, t, pc.why, Do(st, t, a))
  {
    ReachableInv(st);
    if Waiting(st.threads[t].pc) { WaiterHasChan(st, t); }
    EndHasCause(st, t, a);
  }

  /** The bridge starts exactly if the handshake could be replayed; if not, the data
      connection is closed. */
  lemma ReplayDecides(st: State, t: Tid, ok: bool)
    requires Reachable(st) && Can(st, t, Bridge(Replay(ok)))
    ensures var st' := Do(st, t, Bridge(Replay(ok)));
            && t in st'.threads && st.threads[t].pc.PReplay?
            && (if ok then st'.threads[t].pc == PBridge(st.threads[t].pc.s, st.threads[t].pc.c, st.threads[t].pc.d)
                else st'.threads[t].pc == PEnd(ReplayFailed))
            && (st.threads[t].pc.d in st'.closedConns <==> !ok)
  {
    ReachableInv(st);
    ReplayedIsOpen(st, t);
  }

  lemma ReplayedIsOpen(st: State, t: Tid)
    requires Inv(st) && IsPlayer(st, t) && st.threads[t].pc.PReplay?
    ensures st.threads[t].pc.d !in st.closedConns
  {
    OwnShare(st, t);
    assert ChanOk(st, t);
    OwnShare(st, st.threads[t].pc.d);
  }

  // ------------------------------------------------ a tick of the statistics

  /** Session `s` is still to be visited in this tick, or about to be. */
  predicate ToVisit(pc: Pc, s: Tid) {
    || (pc.SScan? && s in pc.todo) || (pc.SLock? && (pc.s == s || s in pc.todo))
    || (pc.SSample? && pc.s != s && s in pc.todo)
  }

  predicate Sampling(st: State, t: Tid, s: Tid) {
    IsStats(st, t) && st.threads[t].pc.SSample? && st.threads[t].pc.s == s
  }

  lemma VisitStep(st: State, t: Tid, a: SampleStep, s: Tid)
    requires CanSample(st, t, a) && ToVisit(st.threads[t].pc, s)
    ensures var st' := DoSample(st, t, a);
            IsStats(st', t) && (ToVisit(st'.threads[t].pc, s) || Sampling(st', t, s))
  {
  }

  lemma StatsKinds(st: State, t: Tid, a: Action)
    requires IsStats(st, t) && Can(st, t, a)
    ensures a.Stat?
  {
  }

  lemma TickStep(st: State, u: Tid, a: Action, t: Tid, s: Tid)
    requires IsStats(st, t) && Can(st, u, a) && ToVisit(st.threads[t].pc, s)
    ensures var st' := Do(st, u, a);
            IsStats(st', t) && (ToVisit(st'.threads[t].pc, s) || Sampling(st', t, s))
  {
    if u == t {
      StatsKinds(st, t, a);
      VisitStep(st, t, a.sample, s);
    } else {
      OthersLeaveAlone(st, u, a, t);
    }
  }

  lemma NextTick(run: seq<State>, st: State, k: nat, t: Tid, s: Tid)
    requires Continues(run, st) && k + 1 < |run| && IsStats(run[k], t) && ToVisit(run[k].threads[t].pc, s)
    ensures IsStats(run[k + 1], t) && (ToVisit(run[k + 1].threads[t].pc, s) || Sampling(run[k + 1], t, s))
  {
    assert StepAt(run, k + 1);
    var u, a :| Can(run[k], u, a) && Do(run[k], u, a) == run[k + 1];
    TickStep(run[k], u, a, t, s);
  }

  lemma TickStarts(st: State, t: Tid, s: Tid)
    requires CanSample(st, t, StatsRLock) && s in st.sessions.Values
    ensures IsStats(DoSample(st, t, StatsRLock), t) && ToVisit(DoSample(st, t, StatsRLock).threads[t].pc, s)
  {
  }

  /** A tick does not end before it held the mutex of every session that was mapped
      when it took the read lock. */
  lemma TickVisitsEverySession(run: seq<State>, st: State, i: nat, t: Tid, s: Tid)
    requires Can(st, t, Stat(StatsRLock)) && s in st.sessions.Values
    requires Continues(run, Do(st, t, Stat(StatsRLock))) && i < |run|
    requires t in run[i].threads && run[i].threads[t].pc == SIdle
    ensures exists k :: 0 <= k < i && Sampling(run[k], t, s)
  {
    TickStarts(st, t, s);
    var k := 0;
    while k < i && !Sampling(run[k], t, s)
      invariant 0 <= k <= i && IsStats(run[k], t)
      invariant ToVisit(run[k].threads[t].pc, s) || Sampling(run[k], t, s)
    {
      NextTick(run, run[0], k, t, s);
      k := k + 1;
    }
  }
}
