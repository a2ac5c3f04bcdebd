/** The users file under concurrent saves: every request that changed the store
    takes a snapshot, writes it to a temporary file of its own and renames that
    over the users file. The relay may stop at any moment and start again. */
module UsersFile {
  import opened Wrappers
  import opened Bytes
  import opened Users

  // ---------------------------------------------------------------- machine

  /** The JSON form of a list of users. */
  datatype Codec = Codec(marshal: seq<Info> -> seq<Byte>, unmarshal: seq<Byte> -> Option<seq<Info>>)

  ghost predicate RoundTrips(c: Codec) {
    forall list :: c.unmarshal(c.marshal(list)) == Some(list)
  }

  /** A SaveToFile between its snapshot and its end; `at` is the index in the
      history of the store it copied. */
  datatype Saver = Saver(list: seq<Info>, at: nat, temp: seq<Byte>)

  /** `history` are all states of the store so far, `due` the requests that
      changed it and have yet to save, `fileAt` the index in the history of what
      is in the file. */
  datatype State = State(
    codec: Codec,
    table: Table,
    history: seq<Table>,
    due: set<int>,
    savers: map<int, Saver>,
    file: seq<Byte>,
    fileAt: nat)

  datatype Action =
    | Change(c: Users.Change)
    | TakeSnapshot(list: seq<Info>)
    | Write(temp: seq<Byte>)
    | Rename
    | Fail
    | Restart

  /** Request `r` does `a`. */
  datatype Turn = Turn(r: int, a: Action)

  /** The requests that end with a save. */
  predicate Accepted(m: Table, c: Users.Change) {
    match c
    case AddGuest(_, _, _) => true
    case CleanUpGuest(u) => u in m && m[u].isGuest
    case Update(u, _, _) => u in m
    case Add(info, _) => info.userID != "" && info.token != "" && info.subdomain != ""
    case Delete(u) => u != ""
  }

  ghost predicate Can(s: State, t: Turn) {
    match t.a
    case Change(c) => t.r !in s.due && t.r !in s.savers && Accepted(s.table, c)
    case TakeSnapshot(list) => t.r in s.due && t.r !in s.savers && Lists(list, s.table)
    case Write(temp) => t.r in s.savers && s.savers[t.r].temp <= temp <= s.codec.marshal(s.savers[t.r].list)
    case Rename => t.r in s.savers && s.savers[t.r].temp == s.codec.marshal(s.savers[t.r].list)
    case Fail => t.r in s.savers
    case Restart => s.codec.unmarshal(s.file).Some?
  }

  ghost function Do(s: State, t: Turn): State
    requires Can(s, t)
  {
    match t.a
    case Change(c) =>
      var table := Apply(s.table, c);
      s.(table := table, history := s.history + [table], due := s.due + {t.r})
    case TakeSnapshot(list) =>
      s.(due := s.due - {t.r},
         savers := s.savers[t.r := Saver(list, if s.history == [] then 0 else |s.history| - 1, [])])
    case Write(temp) => s.(savers := s.savers[t.r := s.savers[t.r].(temp := temp)])
    case Rename => s.(file := s.savers[t.r].temp, fileAt := s.savers[t.r].at, savers := s.savers - {t.r})
    case Fail => s.(savers := s.savers - {t.r})
    case Restart =>
      var table := Loaded(s.codec.unmarshal(s.file).value);
      State(s.codec, table, s.history + [table], {}, map[], s.file, |s.history|)
  }

  /** The relay starts from a file it can read. */
  ghost predicate Init(s: State) {
    && RoundTrips(s.codec) && s.codec.unmarshal(s.file).Some?
    && s == State(s.codec, Loaded(s.codec.unmarshal(s.file).value), [s.table], {}, map[], s.file, 0)
  }

  ghost predicate Takes(s: State, t: Turn, s': State) {
    Can(s, t) && Do(s, t) == s'
  }

  function Front(turns: seq<Turn>): seq<Turn>
    requires turns != []
  {
    turns[..|turns| - 1]
  }

  function Last(turns: seq<Turn>): Turn
    requires turns != []
  {
    turns[|turns| - 1]
  }

  /** `turns` can be taken one after the other from `s` and lead to `end`. */
  ghost predicate Leads(s: State, turns: seq<Turn>, end: State) {
    if turns == [] then s == end
    else exists mid :: Leads(s, Front(turns), mid) && Takes(mid, Last(turns), end)
  }

  // -------------------------------------------------------------- invariant

  ghost predicate SaverOk(s: State, r: int)
    requires r in s.savers
  {
    var v := s.savers[r];
    && v.at < |s.history| && Lists(v.list, s.history[v.at]) && v.temp <= s.codec.marshal(v.list)
    && r !in s.due
  }

  ghost predicate FileOk(s: State) {
    var list := s.codec.unmarshal(s.file);
    s.fileAt < |s.history| && list.Some? && Loaded(list.value) == s.history[s.fileAt]
  }

  ghost predicate Inv(s: State) {
    && RoundTrips(s.codec)
    && s.history != [] && s.history[|s.history| - 1] == s.table
    && (forall k | 0 <= k < |s.history| :: Keyed(s.history[k]))
    && (forall r | r in s.savers :: SaverOk(s, r))
    && FileOk(s)
  }

  lemma ChangeKeepsInv(s: State, t: Turn)
    requires Inv(s) && Can(s, t) && t.a.Change?
    ensures Inv(Do(s, t))
  {
    ApplyKeepsKeys(s.table, t.a.c);
    forall r | r in s.savers ensures SaverOk(Do(s, t), r) { assert SaverOk(s, r); }
  }

  lemma SaveKeepsInv(s: State, t: Turn)
    requires Inv(s) && Can(s, t) && (t.a.TakeSnapshot? || t.a.Write? || t.a.Fail?)
    ensures Inv(Do(s, t))
  {
    forall r | r in Do(s, t).savers ensures SaverOk(Do(s, t), r) {
      if r in s.savers { assert SaverOk(s, r); }
    }
  }

  /** The whole of a snapshot replaces the file at once. */
  lemma RenameKeepsInv(s: State, t: Turn)
    requires Inv(s) && Can(s, t) && t.a.Rename?
    ensures Inv(Do(s, t))
  {
    var v := s.savers[t.r];
    assert SaverOk(s, t.r);
    LoadRebuilds(v.list, s.history[v.at]);
    forall r | r in Do(s, t).savers ensures SaverOk(Do(s, t), r) { assert SaverOk(s, r); }
  }

  lemma RestartKeepsInv(s: State, t: Turn)
    requires Inv(s) && Can(s, t) && t.a.Restart?
    ensures Inv(Do(s, t))
  {
    LoadIsKeyed(s.codec.unmarshal(s.file).value);
  }

  lemma StepKeepsInv(s: State, t: Turn)
    requires Inv(s) && Can(s, t)
    ensures Inv(Do(s, t)) && s.history <= Do(s, t).history
  {
    if t.a.Change? { ChangeKeepsInv(s, t); }
    else if t.a.Rename? { RenameKeepsInv(s, t); }
    else if t.a.Restart? { RestartKeepsInv(s, t); }
    else { SaveKeepsInv(s, t); }
  }

  lemma {:induction false} RunKeepsInv(s: State, turns: seq<Turn>, end: State)
    requires Init(s) && Leads(s, turns, end)
    ensures Inv(end)
    decreases |turns|
  {
    if turns == [] {
      LoadIsKeyed(s.codec.unmarshal(s.file).value);
    } else {
      var mid :| Leads(s, Front(turns), mid) && Takes(mid, Last(turns), end);
      RunKeepsInv(s, Front(turns), mid);
      StepKeepsInv(mid, Last(turns));
    }
  }

  // ---------------------------------------------------------------- results

  ghost predicate Idle(s: State) {
    s.due == {} && s.savers == map[]
  }

  /** At every moment the file can be read, and reading it gives a state the
      store is in or was in, whole. So a relay that stops can start again: with the
      store of the file, and no request at work. */
  lemma FileIsASnapshot(s: State, turns: seq<Turn>, end: State)
    requires Init(s) && Leads(s, turns, end)
    ensures end.codec.unmarshal(end.file).Some?
    ensures Loaded(end.codec.unmarshal(end.file).value) in end.history
    ensures Keyed(Loaded(end.codec.unmarshal(end.file).value)) && Keyed(end.table)
    ensures forall r :: Can(end, Turn(r, Restart))
    ensures forall r :: var again := Do(end, Turn(r, Restart));
              Idle(again) && again.file == end.file && again.table == Loaded(end.codec.unmarshal(end.file).value)
  {
    RunKeepsInv(s, turns, end);
  }

  // ----------------------------------------- which store is in the file

  /** The last change since the relay last started. */
  function LastChange(turns: seq<Turn>): (i: Option<nat>)
    ensures i.Some? ==> i.value < |turns| && turns[i.value].a.Change?
                        && forall j | i.value < j < |turns| :: !turns[j].a.Change? && !turns[j].a.Restart?
    ensures i == None ==> forall j | 0 <= j < |turns| && turns[j].a.Change? ::
                            exists k :: j < k < |turns| && turns[k].a.Restart?
  {
    if turns == [] || Last(turns).a.Restart? then None
    else if Last(turns).a.Change? then Some(|turns| - 1)
    else LastChange(Front(turns))
  }

  /** The last snapshot that request `r` took. */
  function LastSnapshot(turns: seq<Turn>, r: int): (i: Option<nat>)
    ensures i.Some? ==> i.value < |turns| && turns[i.value].r == r && turns[i.value].a.TakeSnapshot?
                        && forall j | i.value < j < |turns| && turns[j].r == r :: !turns[j].a.TakeSnapshot?
    ensures i == None ==> forall j | 0 <= j < |turns| && turns[j].r == r :: !turns[j].a.TakeSnapshot?
  {
    if turns == [] then None
    else if Last(turns).r == r && Last(turns).a.TakeSnapshot? then Some(|turns| - 1)
    else LastSnapshot(Front(turns), r)
  }

  function LastRename(turns: seq<Turn>): (i: Option<nat>)
    ensures i.Some? ==> i.value < |turns| && turns[i.value].a.Rename?
                        && forall j | i.value < j < |turns| :: !turns[j].a.Rename?
    ensures i == None ==> forall j | 0 <= j < |turns| :: !turns[j].a.Rename?
  {
    if turns == [] then None
    else if Last(turns).a.Rename? then Some(|turns| - 1)
    else LastRename(Front(turns))
  }

  /** The snapshot that the last rename put in the file. */
  function Copied(turns: seq<Turn>): Option<nat> {
    match LastRename(turns)
    case None => None
    case Some(k) => LastSnapshot(turns[..k], turns[k].r)
  }

  /** The snapshot was taken after the last change, if there was one. */
  predicate IsLate(turns: seq<Turn>, snapshot: Option<nat>) {
    LastChange(turns).Some? ==> snapshot.Some? && LastChange(turns).value < snapshot.value
  }

  /** The last rename is of a snapshot taken after the last change. */
  predicate RenamedLate(turns: seq<Turn>) {
    IsLate(turns, Copied(turns))
  }

  lemma CopiedOnward(turns: seq<Turn>)
    requires turns != []
    ensures Copied(turns) == if Last(turns).a.Rename? then LastSnapshot(Front(turns), Last(turns).r)
                             else Copied(Front(turns))
  {
    if !Last(turns).a.Rename? && LastRename(turns).Some? {
      var k := LastRename(turns).value;
      assert Front(turns)[..k] == turns[..k];
    }
  }

  /** The indices into the history agree with the turns. */
  ghost predicate Dated(turns: seq<Turn>, s: State) {
    && (forall r | r in s.savers :: LastSnapshot(turns, r).Some?
          && (s.savers[r].at == |s.history| - 1 <==> IsLate(turns, LastSnapshot(turns, r))))
    && (s.fileAt == |s.history| - 1 <==> RenamedLate(turns))
  }

  lemma StepStaysDated(turns: seq<Turn>, mid: State, end: State)
    requires turns != [] && Inv(mid) && Dated(Front(turns), mid) && Takes(mid, Last(turns), end)
    ensures Dated(turns, end)
  {
    CopiedOnward(turns);
    var t := Last(turns);
    assert t.r in mid.savers ==> SaverOk(mid, t.r);
    if t.a.Change? { ChangeStaysDated(turns, mid, end); }
  }

  /** After a change nothing is up to date any more. */
  lemma ChangeStaysDated(turns: seq<Turn>, mid: State, end: State)
    requires turns != [] && Inv(mid) && Dated(Front(turns), mid)
    requires Takes(mid, Last(turns), end) && Last(turns).a.Change?
    ensures Dated(turns, end)
  {
    CopiedOnward(turns);
    forall r | r in end.savers
      ensures LastSnapshot(turns, r).Some? && end.savers[r].at != |end.history| - 1
      ensures !IsLate(turns, LastSnapshot(turns, r))
    {
      assert SaverOk(mid, r);
    }
  }

  lemma {:induction false} RunIsDated(s: State, turns: seq<Turn>, end: State)
    requires Init(s) && Leads(s, turns, end)
    ensures Inv(end) && Dated(turns, end)
    decreases |turns|
  {
    if turns == [] {
      LoadIsKeyed(s.codec.unmarshal(s.file).value);
    } else {
      var mid :| Leads(s, Front(turns), mid) && Takes(mid, Last(turns), end);
      RunIsDated(s, Front(turns), mid);
      StepKeepsInv(mid, Last(turns));
      StepStaysDated(turns, mid, end);
    }
  }

  /** On every run, with failures and restarts, the file holds the last state of
      the store if and only if the last rename is of a snapshot taken after the
      last change since the relay started. */
  lemma FreshIffRenamedLate(s: State, turns: seq<Turn>, end: State)
    requires Init(s) && Leads(s, turns, end)
    ensures end.fileAt == |end.history| - 1 <==> RenamedLate(turns)
    ensures end.codec.unmarshal(end.file).Some? && end.fileAt < |end.history|
    ensures Loaded(end.codec.unmarshal(end.file).value) == end.history[end.fileAt]
    ensures RenamedLate(turns) ==> Loaded(end.codec.unmarshal(end.file).value) == end.table
  {
    RunIsDated(s, turns, end);
  }

  /** Nothing fails, and no two saves overlap. */
  ghost predicate Serial(s: State, turns: seq<Turn>, end: State) {
    if turns == [] then s == end
    else exists mid :: Serial(s, Front(turns), mid) && Takes(mid, Last(turns), end)
                    && !Last(turns).a.Fail? && |end.savers| <= 1
  }

  /** When no request has yet to copy the store, the one copy under way, or else
      the last rename, is late enough. */
  ghost predicate UpToDate(turns: seq<Turn>, s: State) {
    s.due == {} ==>
      && (s.savers == map[] ==> RenamedLate(turns))
      && (forall r | r in s.savers :: IsLate(turns, LastSnapshot(turns, r)))
  }

  lemma OnlySaver(m: map<int, Saver>, r: int)
    requires r in m && |m| <= 1
    ensures m - {r} == map[] && m.Keys == {r}
  {
    var rest := m.Keys - {r};
    assert |rest| == |m.Keys| - 1;
    assert rest == {};
  }

  lemma SerialStep(turns: seq<Turn>, s: State, end: State)
    requires turns != [] && UpToDate(Front(turns), s) && |s.savers| <= 1
    requires Takes(s, Last(turns), end) && !Last(turns).a.Fail? && |end.savers| <= 1
    ensures UpToDate(turns, end)
  {
    var t := Last(turns);
    CopiedOnward(turns);
    if t.a.Change? { assert t.r in end.due; }
    else if t.a.TakeSnapshot? { OnlySaver(end.savers, t.r); }
    else if t.a.Rename? { SerialRename(turns, s, end); }
  }

  lemma SerialRename(turns: seq<Turn>, s: State, end: State)
    requires turns != [] && UpToDate(Front(turns), s) && |s.savers| <= 1
    requires Takes(s, Last(turns), end) && Last(turns).a.Rename?
    ensures UpToDate(turns, end)
  {
    CopiedOnward(turns);
    OnlySaver(s.savers, Last(turns).r);
  }

  lemma {:induction false} SerialRun(s: State, turns: seq<Turn>, end: State)
    requires Serial(s, turns, end) && s.due == {} && s.savers == map[]
    ensures Leads(s, turns, end) && UpToDate(turns, end) && |end.savers| <= 1
    decreases |turns|
  {
    if turns != [] {
      var mid :| Serial(s, Front(turns), mid) && Takes(mid, Last(turns), end);
      SerialRun(s, Front(turns), mid);
      SerialStep(turns, mid, end);
    }
  }

  /** If saves do not overlap and none fails, the file holds the current store
      whenever no request is at work. */
  lemma SerialSavesAreFresh(s: State, turns: seq<Turn>, end: State)
    requires Init(s) && Serial(s, turns, end) && Idle(end)
    ensures end.codec.unmarshal(end.file).Some? && Loaded(end.codec.unmarshal(end.file).value) == end.table
  {
    SerialRun(s, turns, end);
    FreshIffRenamedLate(s, turns, end);
  }

  /** Request `r` changes the store and takes its snapshot. */
  lemma ChangeAndCopy(s: State, turns: seq<Turn>, mid: State, r: int, c: Users.Change)
    returns (more: seq<Turn>, end: State)
    requires Init(s) && Leads(s, turns, mid) && r !in mid.due && r !in mid.savers && Accepted(mid.table, c)
    ensures Leads(s, more, end) && end.codec == mid.codec
    ensures end.table == Apply(mid.table, c) && end.due == mid.due && r in end.savers
    ensures end.savers == mid.savers[r := end.savers[r]] && Lists(end.savers[r].list, end.table)
  {
    RunKeepsInv(s, turns, mid);
    ApplyKeepsKeys(mid.table, c);
    more, end := Then(s, turns, mid, Turn(r, Change(c)));
    var list := Listing(end.table);
    more, end := Then(s, more, end, Turn(r, TakeSnapshot(list)));
  }

  /** ... and puts it in the file. */
  lemma WriteAndRename(s: State, turns: seq<Turn>, mid: State, r: int) returns (more: seq<Turn>, end: State)
    requires Init(s) && Leads(s, turns, mid) && r in mid.savers
    ensures Leads(s, more, end) && end.codec == mid.codec && end.table == mid.table && end.due == mid.due
    ensures end.savers == mid.savers - {r} && end.file == mid.codec.marshal(mid.savers[r].list)
  {
    RunKeepsInv(s, turns, mid);
    assert SaverOk(mid, r);
    more, end := Then(s, turns, mid, Turn(r, Write(mid.codec.marshal(mid.savers[r].list))));
    more, end := Then(s, more, end, Turn(r, Rename));
  }

  /** Whatever a request does to the store, it can go on to save it: from every state
      of every run, a request that changes the store can end with that store in the
      file. */
  lemma EveryChangeCanBeSaved(s: State, turns: seq<Turn>, mid: State, r: int, c: Users.Change)
    returns (more: seq<Turn>, end: State)
    requires Init(s) && Leads(s, turns, mid) && r !in mid.due && r !in mid.savers && Apply(mid.table, c) != mid.table
    ensures Leads(s, more, end) && end.table == Apply(mid.table, c)
    ensures end.codec.unmarshal(end.file).Some? && Loaded(end.codec.unmarshal(end.file).value) == end.table
    ensures end.due == mid.due && end.savers == mid.savers
  {
    ChangesAreAccepted(mid.table, c);
    TableIsKeyed(s, turns, mid);
    ApplyKeepsKeys(mid.table, c);
    more, end := ChangeAndCopy(s, turns, mid, r, c);
    var list := end.savers[r].list;
    LoadRebuilds(list, end.table);
    more, end := WriteAndRename(s, more, end, r);
    FileReadsBack(end, list);
  }

  lemma TableIsKeyed(s: State, turns: seq<Turn>, end: State)
    requires Init(s) && Leads(s, turns, end)
    ensures RoundTrips(end.codec) && Keyed(end.table)
  {
    RunKeepsInv(s, turns, end);
  }

  lemma FileReadsBack(s: State, list: seq<Info>)
    requires RoundTrips(s.codec) && s.file == s.codec.marshal(list)
    ensures s.codec.unmarshal(s.file) == Some(list)
  {
  }

  lemma ChangesAreAccepted(m: Table, c: Users.Change)
    requires Apply(m, c) != m
    ensures Accepted(m, c)
  {
  }

  /** A save that fails, and one that is done, ends its request. */
  lemma SavesEndRequests(s: State, turns: seq<Turn>, mid: State, r: int, a: Action)
    requires Init(s) && Leads(s, turns, mid) && Can(mid, Turn(r, a)) && (a.Rename? || a.Fail?)
    ensures var end := Do(mid, Turn(r, a));
            && r !in end.due && r !in end.savers && end.table == mid.table
            && (a.Fail? ==> end.file == mid.file)
  {
    RunKeepsInv(s, turns, mid);
    assert SaverOk(mid, r);
  }

  /** Overlapping saves may leave an older store in the file for good: from any
      start, two requests that add users can end with the file of the first. */
  lemma OverlappingSavesCanLoseAnUpdate(s: State, a: Info, b: Info, now: int)
    returns (turns: seq<Turn>, end: State)
    requires Init(s) && Accepted(s.table, Add(a, now)) && Accepted(s.table, Add(b, now))
    requires b.userID !in s.table && a.userID != b.userID
    ensures Leads(s, turns, end) && Idle(end)
    ensures end.codec.unmarshal(end.file).Some?
    ensures b.userID in end.table && b.userID !in Loaded(end.codec.unmarshal(end.file).value)
  {
    TableIsKeyed(s, [], s);
    ApplyKeepsKeys(s.table, Add(a, now));
    turns, end := ChangeAndCopy(s, [], s, 1, Add(a, now));
    var first := end.savers[1].list;
    LoadRebuilds(first, end.table);
    turns, end := ChangeAndCopy(s, turns, end, 2, Add(b, now));
    turns, end := WriteAndRename(s, turns, end, 2);
    turns, end := WriteAndRename(s, turns, end, 1);
    FileReadsBack(end, first);
  }

  lemma Then(s: State, turns: seq<Turn>, mid: State, t: Turn) returns (more: seq<Turn>, end: State)
    requires Leads(s, turns, mid) && Can(mid, t)
    ensures Leads(s, more, end) && end == Do(mid, t)
  {
    more, end := turns + [t], Do(mid, t);
    assert Front(more) == turns;
  }

  /** Every store can be listed. */
  lemma {:induction false} Listing(m: Table) returns (list: seq<Info>)
    requires Keyed(m)
    ensures Lists(list, m)
    decreases |m|
  {
    list := [];
    if m != map[] {
      var u :| u in m;
      var rest := Listing(m - {u});
      list := rest + [m[u]];
      assert list[|rest|] == m[u];
      forall v | v in m ensures m[v] in list {
        if v != u { assert (m - {u})[v] in rest; }
      }
    }
  }
}
