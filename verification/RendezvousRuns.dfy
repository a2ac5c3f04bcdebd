/** Runs of the rendezvous protocol, step by step: a bridged player, a stranded
    connection, and the loop of a kicked session about to remove a newer one. */
module RendezvousRuns {
  import opened Wrappers
  import opened Bytes
  import opened Rendezvous
  import opened RendezvousProperties
  import opened Stranding

  const SUB: Option<string> := Some("a")
  const ROUTE: seq<Byte> -> Option<string> := (input: seq<Byte>) => SUB

  const HOST: Role := Control("u", "a", "k")
  const PLAYER: Role := Player([], SUB)
  const DATA: Role := Data("c", "k")

  /** A state in which nothing was closed and no mutex is held. */
  function Quiescent(threads: map<Tid, Thread>, sessions: map<string, Tid>, sess: map<Tid, Sess>,
                     chans: map<Tid, Chan>, writer: Option<Tid>, readers: set<Tid>): State {
    State(ROUTE, threads, sessions, sess, chans, writer, readers, map[], {}, false)
  }

  lemma Start() returns (st: State)
    ensures Reachable(st) && st == Quiescent(map[], map[], map[], map[], None, {})
  {
    st := Quiescent(map[], map[], map[], map[], None, {});
    assert IsRun([st]);
  }

  lemma Then(mid: State, t: Tid, a: Action) returns (st: State)
    requires Reachable(mid) && !mid.panicked && Can(mid, t, a)
    ensures Reachable(st) && st == Do(mid, t, a)
  {
    NextIsReachable(mid, t, a);
    st := Do(mid, t, a);
  }

  // One step of each kind.

  lemma ThenRoute(mid: State, t: Tid, a: RouteStep) returns (st: State)
    requires Reachable(mid) && !mid.panicked && CanRoute(mid, t, a)
    ensures Reachable(st) && st == DoRoute(mid, t, a)
  {
    st := Then(mid, t, Route(a));
  }

  lemma ThenRegister(mid: State, t: Tid, a: RegisterStep) returns (st: State)
    requires Reachable(mid) && !mid.panicked && CanRegister(mid, t, a)
    ensures Reachable(st) && st == DoRegister(mid, t, a)
  {
    st := Then(mid, t, Register(a));
  }

  lemma ThenSelect(mid: State, t: Tid, a: SelectStep) returns (st: State)
    requires Reachable(mid) && !mid.panicked && CanSelect(mid, t, a)
    ensures Reachable(st) && st == DoSelect(mid, t, a)
  {
    st := Then(mid, t, Select(a));
  }

  lemma ThenBridge(mid: State, t: Tid, a: BridgeStep) returns (st: State)
    requires Reachable(mid) && !mid.panicked && CanBridge(mid, t, a)
    ensures Reachable(st) && st == DoBridge(mid, t, a)
  {
    st := Then(mid, t, Bridge(a));
  }

  lemma ThenScan(mid: State, t: Tid, a: ScanStep) returns (st: State)
    requires Reachable(mid) && !mid.panicked && CanScan(mid, t, a)
    ensures Reachable(st) && st == DoScan(mid, t, a)
  {
    st := Then(mid, t, Scan(a));
  }

  lemma ThenLookUp(mid: State, t: Tid, a: LookStep) returns (st: State)
    requires Reachable(mid) && !mid.panicked && CanLook(mid, t, a)
    ensures Reachable(st) && st == DoLook(mid, t, a)
  {
    st := Then(mid, t, LookUp(a));
  }

  lemma ThenResolve(mid: State, t: Tid, a: ResolveStep) returns (st: State)
    requires Reachable(mid) && !mid.panicked && CanResolve(mid, t, a)
    ensures Reachable(st) && st == DoResolve(mid, t, a)
  {
    st := Then(mid, t, Resolve(a));
  }

  lemma ThenManage(mid: State, t: Tid, a: ManageStep) returns (st: State)
    requires Reachable(mid) && !mid.panicked && CanManage(mid, t, a)
    ensures Reachable(st) && st == DoManage(mid, t, a)
  {
    st := Then(mid, t, Manage(a));
  }

  lemma ThenClose(mid: State, t: Tid, a: CloseStep) returns (st: State)
    requires Reachable(mid) && !mid.panicked && CanClose(mid, t, a)
    ensures Reachable(st) && st == DoClose(mid, t, a)
  {
    st := Then(mid, t, Close(a));
  }

  lemma ThenSpawn(mid: State, t: Tid, role: Role) returns (st: State)
    requires Reachable(mid) && !mid.panicked && CanSpawn(mid, t, role)
    ensures Reachable(st) && st == DoSpawn(mid, t, role)
  {
    st := Then(mid, t, Spawn(role));
  }

  // ------------------------------------------------------------ one session

  const OPEN: Sess := Sess("u", "a", "k", map[], 0)

  /** The host has connected. */
  function Opened(): State {
    Quiescent(map[1 := Thread(HOST, CRun)], map["u" := 1], map[1 := OPEN], map[], None, {})
  }

  lemma OpenedIsReachable()
    ensures Reachable(Opened())
  {
    var st := Start();
    st := ThenSpawn(st, 1, HOST);
    st := ThenManage(st, 1, Announce);
    st := ThenManage(st, 1, Acquire);
    assert st == Quiescent(map[1 := Thread(HOST, CHeld(Create))], map[], map[], map[], Some(1), {});
    st := ThenManage(st, 1, Pick);
    st := ThenManage(st, 1, Swap);
    assert st.threads == map[1 := Thread(HOST, CRun)];
    assert st == Opened();
  }

  // ------------------------------------------------- a player and its mod

  /** The player is at `pc`, with what the session has pending and the channel of
      the player. */
  function Served(player: Pc, pending: map<ConnId, Tid>, chans: map<Tid, Chan>): State {
    Quiescent(map[1 := Thread(HOST, CRun), 2 := Thread(PLAYER, player)], map["u" := 1],
              map[1 := OPEN.(pending := pending)], chans, None, {})
  }

  const WAITED: Chan := Chan(1, "c", false, None, [], 0, false)

  lemma PlayerIsRouted()
    ensures Reachable(Served(PRegister(1, "c"), map[], map[]))
  {
    OpenedIsReachable();
    var st := ThenSpawn(Opened(), 2, PLAYER);
    assert st == Served(PLookup, map[], map[]);
    st := ThenRoute(st, 2, PlayerRLock);
    assert 1 in st.sessions.Values by { assert st.sessions["u"] == 1; }
    st := ThenRoute(st, 2, Find(1));
    st := ThenRoute(st, 2, Notify("c"));
    assert st.threads == map[1 := Thread(HOST, CRun), 2 := Thread(PLAYER, PRegister(1, "c"))];
    assert st == Served(PRegister(1, "c"), map[], map[]);
  }

  lemma PlayerWaits()
    ensures Reachable(Served(PWait(1, "c"), map["c" := 2], map[2 := WAITED]))
  {
    PlayerIsRouted();
    var st := ThenRegister(Served(PRegister(1, "c"), map[], map[]), 2, LockToAdd);
    st := ThenRegister(st, 2, Insert);
    assert st.mus == map[];
    assert st.threads == map[1 := Thread(HOST, CRun), 2 := Thread(PLAYER, PWait(1, "c"))];
    assert st.sess == map[1 := OPEN.(pending := map["c" := 2])];
    assert st == Served(PWait(1, "c"), map["c" := 2], map[2 := WAITED]);
  }

  /** ... and the handler of its data connection is at `data`. */
  function Answered(player: Pc, data: Pc, pending: map<ConnId, Tid>, chan: Chan, readers: set<Tid>): State {
    Quiescent(map[1 := Thread(HOST, CRun), 2 := Thread(PLAYER, player), 3 := Thread(DATA, data)], map["u" := 1],
              map[1 := OPEN.(pending := pending)], map[2 := chan], None, readers)
  }

  lemma OnlySession(sessions: map<string, Tid>)
    requires sessions == map["u" := 1]
    ensures sessions.Values == {1}
  {
    assert sessions["u"] == 1;
  }

  lemma HandlerScans()
    ensures Reachable(Answered(PWait(1, "c"), DCheck(1, {}), map["c" := 2], WAITED, {3}))
  {
    PlayerWaits();
    var st := ThenSpawn(Served(PWait(1, "c"), map["c" := 2], map[2 := WAITED]), 3, DATA);
    assert st == Answered(PWait(1, "c"), DLock, map["c" := 2], WAITED, {});
    OnlySession(st.sessions);
    st := ThenScan(st, 3, DataRLock);
    assert st == Answered(PWait(1, "c"), DScan({1}), map["c" := 2], WAITED, {3});
    st := ThenScan(st, 3, VisitNext(1));
    var todo: set<Tid> := {1};
    assert todo - {1} == {};
    assert st.threads[3] == Thread(DATA, DCheck(1, {}));
    assert st == Answered(PWait(1, "c"), DCheck(1, {}), map["c" := 2], WAITED, {3});
  }

  lemma HandlerResolves()
    ensures Reachable(Answered(PWait(1, "c"), DResolve(1), map["c" := 2], WAITED, {3}))
  {
    HandlerScans();
    var st := ThenLookUp(Answered(PWait(1, "c"), DCheck(1, {}), map["c" := 2], WAITED, {3}), 3, LockToLook);
    st := ThenLookUp(st, 3, Look);
    assert st.mus == map[];
    assert st == Answered(PWait(1, "c"), DResolve(1), map["c" := 2], WAITED, {3});
  }

  lemma HandlerSends()
    ensures Reachable(Answered(PWait(1, "c"), DSend(1, 2), map[], WAITED.(sender := Some(3)), {3}))
  {
    HandlerResolves();
    var st := ThenResolve(Answered(PWait(1, "c"), DResolve(1), map["c" := 2], WAITED, {3}), 3, LockToTake);
    st := ThenResolve(st, 3, Take);
    assert st.mus == map[];
    assert map["c" := 2] - {"c"} == map[];
    assert st.sess == map[1 := OPEN.(pending := map[])];
    assert st == Answered(PWait(1, "c"), DSend(1, 2), map[], WAITED.(sender := Some(3)), {3});
  }

  // ----------------------------------------------------------------- results

  /** A player can be bridged, to the data connection that answers it. */
  lemma PlayerCanBeBridged() returns (st: State)
    ensures Reachable(st) && 2 in st.threads && st.threads[2].pc == PBridge(1, "c", 3) && WellMatched(st, 2, 3)
  {
    HandlerSends();
    st := ThenResolve(Answered(PWait(1, "c"), DSend(1, 2), map[], WAITED.(sender := Some(3)), {3}), 3, Send);
    st := ThenSelect(st, 2, Receive);
    st := ThenBridge(st, 2, Replay(true));
  }

  /** A data connection can be stranded. */
  lemma ConnCanBeStranded() returns (st: State)
    ensures Reachable(st) && Stranded(st, 3, 2)
  {
    HandlerSends();
    st := ThenSelect(Answered(PWait(1, "c"), DSend(1, 2), map[], WAITED.(sender := Some(3)), {3}), 2, Timeout);
    st := ThenResolve(st, 3, Send);
  }

  /** The player has had NEW_CONN sent but is not registered; the handler of the data
      connection is at `data`. */
  function Early(data: Pc, readers: set<Tid>): State {
    Quiescent(map[1 := Thread(HOST, CRun), 2 := Thread(PLAYER, PRegister(1, "c")), 3 := Thread(DATA, data)],
              map["u" := 1], map[1 := OPEN], map[], None, readers)
  }

  lemma EarlyHandlerScans()
    ensures Reachable(Early(DCheck(1, {}), {3}))
  {
    PlayerIsRouted();
    var st := ThenSpawn(Served(PRegister(1, "c"), map[], map[]), 3, DATA);
    assert st == Early(DLock, {});
    OnlySession(st.sessions);
    st := ThenScan(st, 3, DataRLock);
    assert st == Early(DScan({1}), {3});
    st := ThenScan(st, 3, VisitNext(1));
    var todo: set<Tid> := {1};
    assert todo - {1} == {};
    assert st.threads[3] == Thread(DATA, DCheck(1, {}));
    assert st == Early(DCheck(1, {}), {3});
  }

  lemma EarlyHandlerLooks()
    ensures Reachable(Early(DScan({}), {3}))
  {
    EarlyHandlerScans();
    var st := ThenLookUp(Early(DCheck(1, {}), {3}), 3, LockToLook);
    st := ThenLookUp(st, 3, Look);
    assert st.mus == map[];
    assert st == Early(DScan({}), {3});
  }

  /** A CONN_READY that comes after NEW_CONN was sent and before the player is
      registered can be refused: its connection is closed. */
  lemma EarlyReadyCanBeRefused() returns (st: State)
    ensures Reachable(st) && 2 in st.threads && st.threads[2].pc == PRegister(1, "c")
    ensures 3 in st.threads && st.threads[3] == Thread(DATA, DEnd(NotFound)) && 3 in st.closedConns
  {
    EarlyHandlerLooks();
    st := ThenScan(Early(DScan({}), {3}), 3, NoneLeft);
    st := ThenScan(st, 3, DataRUnlock);
    st := ThenScan(st, 3, CloseMissed);
  }

  /** The first host's session was kicked by a second connection of the same user,
      whose session is open; both at the given places. */
  function Kicked(first: Pc, second: Pc, writer: Option<Tid>, mapped: Tid, both: map<Tid, Sess>): State {
    Quiescent(map[1 := Thread(HOST, first), 4 := Thread(HOST, second)], map["u" := mapped], both, map[], writer, {})
  }

  lemma SecondHostAnnounces()
    ensures Reachable(Kicked(CRun, CDrain(Create), Some(4), 1, map[1 := OPEN]))
  {
    OpenedIsReachable();
    var st := ThenSpawn(Opened(), 4, HOST);
    assert st == Kicked(CRun, CAnnounce(Create), None, 1, map[1 := OPEN]);
    st := ThenManage(st, 4, Announce);
    assert st == Kicked(CRun, CDrain(Create), Some(4), 1, map[1 := OPEN]);
  }

  lemma SecondHostKicks()
    ensures Reachable(Kicked(CRun, CClose(Create, 1), Some(4), 1, map[1 := OPEN]))
  {
    SecondHostAnnounces();
    var st := ThenManage(Kicked(CRun, CDrain(Create), Some(4), 1, map[1 := OPEN]), 4, Acquire);
    assert st == Kicked(CRun, CHeld(Create), Some(4), 1, map[1 := OPEN]);
    st := ThenManage(st, 4, Pick);
    assert st == Kicked(CRun, CClose(Create, 1), Some(4), 1, map[1 := OPEN]);
  }

  lemma SecondHostLocks() returns (st: State)
    ensures Reachable(st)
    ensures st == Kicked(CRun, CClosing(Create, 1), Some(4), 1, map[1 := OPEN]).(mus := map[1 := 4])
  {
    SecondHostKicks();
    st := ThenClose(Kicked(CRun, CClose(Create, 1), Some(4), 1, map[1 := OPEN]), 4, LockToClose);
    assert st.threads == map[1 := Thread(HOST, CRun), 4 := Thread(HOST, CClosing(Create, 1))];
  }

  lemma FirstSessionCloses()
    ensures Reachable(Kicked(CRun, CSwap(Create, Some(1)), Some(4), 1, map[1 := OPEN.(closes := 1)]))
  {
    var st := SecondHostLocks();
    st := ThenClose(st, 4, CloseAll);
    assert st.mus == map[] && st.chans == map[];
    assert st == Kicked(CRun, CSwap(Create, Some(1)), Some(4), 1, map[1 := OPEN.(closes := 1)]);
  }

  lemma FirstHostIsKicked()
    ensures Reachable(Kicked(CRun, CRun, None, 4, map[1 := OPEN.(closes := 1), 4 := OPEN]))
  {
    FirstSessionCloses();
    var st := ThenManage(Kicked(CRun, CSwap(Create, Some(1)), Some(4), 1, map[1 := OPEN.(closes := 1)]), 4, Swap);
    assert st.threads == map[1 := Thread(HOST, CRun), 4 := Thread(HOST, CRun)];
    assert st.sess == map[1 := OPEN.(closes := 1), 4 := OPEN];
    assert st == Kicked(CRun, CRun, None, 4, map[1 := OPEN.(closes := 1), 4 := OPEN]);
  }

  /** The loop of a kicked session can hold the lock to remove the newer session of
      its user, mapped and open, which is what it then closes. */
  lemma KickedLoopCanRemoveNewer() returns (st: State)
    ensures Reachable(st) && 1 in st.threads && st.threads[1] == Thread(HOST, CHeld(Remove))
    ensures 1 in st.sess && st.sess[1].closes == 1
    ensures "u" in st.sessions && st.sessions["u"] == 4 && 4 in st.sess && st.sess[4].closes == 0
    ensures Can(st, 1, Manage(Pick)) && Do(st, 1, Manage(Pick)).threads[1].pc == CClose(Remove, 4)
  {
    FirstHostIsKicked();
    st := ThenManage(Kicked(CRun, CRun, None, 4, map[1 := OPEN.(closes := 1), 4 := OPEN]), 1, Exit);
    st := ThenManage(st, 1, Announce);
    st := ThenManage(st, 1, Acquire);
  }
}
