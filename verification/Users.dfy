/** The user store of the relay: a map of records that requests update in place,
    and the list form in which it goes to the users file. */
module Users {
  import opened Wrappers

  // ------------------------------------------------------- the store as a map

  /** UserInfo. */
  datatype Info = Info(userID: string, token: string, subdomain: string, createdAt: int, isGuest: bool)

  type Table = map<string, Info>

  /** Every record sits under its own UserID. */
  predicate Keyed(m: Table) {
    forall u | u in m :: m[u].userID == u
  }

  /** The requests that change the store. */
  datatype Change =
    | AddGuest(suffix: string, token: string, now: int)
    | CleanUpGuest(userID: string)
    | Update(userID: string, subdomain: string, token: string)
    | Add(info: Info, now: int)
    | Delete(userID: string)

  function Guest(suffix: string, token: string, now: int): Info {
    Info("Guest_" + suffix, token, "guest-" + suffix, now, true)
  }

  /** What a request makes of the store. */
  function Apply(m: Table, c: Change): Table {
    match c
    case AddGuest(suffix, token, now) => m["Guest_" + suffix := Guest(suffix, token, now)]
    case CleanUpGuest(u) => if u in m && m[u].isGuest then m - {u} else m
    case Update(u, subdomain, token) =>
      if u !in m then m
      else m[u := m[u].(subdomain := subdomain, token := if token == "" then m[u].token else token)]
    case Add(info, now) =>
      if info.userID == "" || info.token == "" || info.subdomain == "" then m
      else m[info.userID := info.(createdAt := now)]
    case Delete(u) => if u == "" then m else m - {u}
  }

  lemma ApplyKeepsKeys(m: Table, c: Change)
    requires Keyed(m)
    ensures Keyed(Apply(m, c))
    ensures forall u | u in m && u in Apply(m, c) && !c.Add? && !c.AddGuest? ::
              Apply(m, c)[u].createdAt == m[u].createdAt && Apply(m, c)[u].isGuest == m[u].isGuest
  {
  }

  // Laws of the requests, one after the other.

  /** An update gives the record the subdomain, and the token unless that is empty. A
      second update with an empty token moves the user and leaves the token. */
  lemma UpdatesTwice(m: Table, u: string, subdomain: string, token: string, moved: string)
    requires u in m
    ensures var m' := Apply(m, Update(u, subdomain, token));
            && m'.Keys == m.Keys && m' - {u} == m - {u} && m'[u].subdomain == subdomain
            && m'[u].token == (if token == "" then m[u].token else token)
            && m'[u].userID == m[u].userID && m'[u].createdAt == m[u].createdAt && m'[u].isGuest == m[u].isGuest
            && Apply(m', Update(u, moved, "")) == m'[u := m'[u].(subdomain := moved)]
    ensures token != "" ==> Known(Apply(m, Update(u, subdomain, token)), token)
    ensures token != "" ==> Known(Apply(Apply(m, Update(u, subdomain, token)), Update(u, moved, "")), token)
  {
    var m' := Apply(m, Update(u, subdomain, token));
    if token != "" {
      assert m'[u].token == token;
      assert Apply(m', Update(u, moved, ""))[u].token == token;
    }
  }

  /** A guest is known while it is there, and when it is cleaned up the store is as
      before, but for a user that had its UserID. */
  lemma GuestComesAndGoes(m: Table, suffix: string, token: string, now: int)
    ensures var m' := Apply(m, AddGuest(suffix, token, now));
            && Known(m', token) && "Guest_" + suffix in m' && m'["Guest_" + suffix].isGuest
            && Apply(m', CleanUpGuest("Guest_" + suffix)) == m - {"Guest_" + suffix}
    ensures "Guest_" + suffix !in m ==>
              Apply(Apply(m, AddGuest(suffix, token, now)), CleanUpGuest("Guest_" + suffix)) == m
  {
    var u := "Guest_" + suffix;
    var m' := Apply(m, AddGuest(suffix, token, now));
    assert m'[u].token == token;
    if u !in m { assert m - {u} == m; }
  }

  /** The clean-up spares whoever is not a guest; deleting spares nobody. */
  lemma WhoGoes(m: Table, u: string)
    requires u in m
    ensures u in Apply(m, CleanUpGuest(u)) <==> !m[u].isGuest
    ensures u in Apply(m, Delete(u)) <==> u == ""
  {
  }

  /** A user that was added can be deleted again, and is known in between. */
  lemma AddedAndDeleted(m: Table, info: Info, now: int)
    requires info.userID != "" && info.token != "" && info.subdomain != ""
    ensures var m' := Apply(m, Add(info, now));
            && info.userID in m' && m'[info.userID] == Info(info.userID, info.token, info.subdomain, now, info.isGuest)
            && Known(m', info.token) && Apply(m', Delete(info.userID)) == m - {info.userID}
  {
    var m' := Apply(m, Add(info, now));
    assert m'[info.userID].token == info.token;
  }

  /** Some user has this token. */
  predicate Known(m: Table, token: string) {
    exists u :: u in m && m[u].token == token
  }

  // --------------------------------------------------------- the store as a list

  /** What LoadFromFile makes of a list: a later record replaces an earlier one. */
  function Loaded(list: seq<Info>): Table {
    if list == [] then map[]
    else var last := list[|list| - 1]; Loaded(list[..|list| - 1])[last.userID := last]
  }

  /** `list` is the store in one of the orders a map iteration may take: every
      record once. */
  ghost predicate Lists(list: seq<Info>, m: Table) {
    && (forall i | 0 <= i < |list| :: list[i].userID in m && m[list[i].userID] == list[i])
    && (forall i, j | 0 <= i < j < |list| :: list[i].userID != list[j].userID)
    && (forall u | u in m :: m[u] in list)
  }

  /** Record `i` is the last one of its user. */
  predicate LastOfUser(list: seq<Info>, i: nat)
    requires i < |list|
  {
    forall j | i < j < |list| :: list[j].userID != list[i].userID
  }

  /** The keys of a loaded store are the UserIDs ... */
  lemma {:induction false} LoadIsKeyed(list: seq<Info>)
    ensures Keyed(Loaded(list))
  {
    if list != [] { LoadIsKeyed(list[..|list| - 1]); }
  }

  /** ... and it holds exactly the last record of each user. */
  lemma {:induction false} LoadKeepsLast(list: seq<Info>, i: nat)
    requires i < |list|
    ensures list[i].userID in Loaded(list)
    ensures LastOfUser(list, i) ==> Loaded(list)[list[i].userID] == list[i]
    decreases |list|
  {
    var n := |list| - 1;
    if i < n {
      var shorter := list[..n];
      LoadKeepsLast(shorter, i);
      assert shorter[i] == list[i];
      if LastOfUser(list, i) {
        assert list[n].userID != list[i].userID;
        assert LastOfUser(shorter, i);
      }
    }
  }

  lemma {:induction false} LoadedIsLast(list: seq<Info>, u: string) returns (i: nat)
    requires u in Loaded(list)
    ensures i < |list| && LastOfUser(list, i) && list[i] == Loaded(list)[u]
  {
    var n := |list| - 1;
    i := n;
    if u != list[n].userID {
      i := LoadedIsLast(list[..n], u);
      LoadIsKeyed(list[..n]);
      assert list[..n][i] == list[i];
      forall j | i < j < |list| ensures list[j].userID != list[i].userID {
        if j < n { assert list[..n][j] == list[j]; }
      }
    }
  }

  /** Saving and loading again rebuilds the store, in whatever order the records
      were written. */
  lemma LoadRebuilds(list: seq<Info>, m: Table)
    requires Keyed(m) && Lists(list, m)
    ensures Loaded(list) == m
  {
    forall u | u in m ensures u in Loaded(list) && Loaded(list)[u] == m[u] {
      var i: nat :| i < |list| && list[i] == m[u];
      LoadKeepsLast(list, i);
    }
    LoadIsKeyed(list);
    forall u | u in Loaded(list) ensures u in m {
      var i := LoadedIsLast(list, u);
    }
  }

  /** ... and only listings of the store do, among the lists without a UserID
      twice. */
  lemma OnlyListingsRebuild(list: seq<Info>, m: Table)
    requires Keyed(m) && forall i, j | 0 <= i < j < |list| :: list[i].userID != list[j].userID
    ensures Loaded(list) == m <==> Lists(list, m)
  {
    if Lists(list, m) { LoadRebuilds(list, m); }
    if Loaded(list) == m {
      forall i | 0 <= i < |list| ensures list[i].userID in m && m[list[i].userID] == list[i] {
        LoadKeepsLast(list, i);
      }
      forall u | u in m ensures m[u] in list {
        var i := LoadedIsLast(list, u);
      }
    }
  }

  // ------------------------------------------------------------- the classes

  /** One record, shared by the store and whoever looked it up. */
  class User {
    const userID: string
    const createdAt: int
    const isGuest: bool
    var token: string
    var subdomain: string

    constructor (info: Info)
      ensures Value() == info
    {
      userID, createdAt, isGuest := info.userID, info.createdAt, info.isGuest;
      token, subdomain := info.token, info.subdomain;
    }

    function Value(): Info
      reads this
    {
      Info(userID, token, subdomain, createdAt, isGuest)
    }
  }

  class UserStore {
    var users: map<string, User>

    constructor ()
      ensures users == map[]
    {
      users := map[];
    }

    predicate Valid()
      reads this
    {
      forall u | u in users :: users[u].userID == u
    }

    ghost function View(): Table
      reads this, users.Values
    {
      map u | u in users :: users[u].Value()
    }

    /** LoadFromFile; `file` is None when it cannot be read or is not a list of
        users. */
    method LoadFromFile(file: Option<seq<Info>>) returns (ok: bool)
      modifies this
      ensures ok <==> file.Some?
      ensures !ok ==> users == old(users)
      ensures ok ==> Valid() && View() == Loaded(file.value) && forall u | u in users :: fresh(users[u])
    {
      if file == None {
        return false;
      }
      var list := file.value;
      users := map[];
      var i := 0;
      while i < |list|
        invariant 0 <= i <= |list|
        invariant Valid() && forall u | u in users :: fresh(users[u])
        invariant users.Keys == Loaded(list[..i]).Keys
        invariant forall u | u in users :: users[u].Value() == Loaded(list[..i])[u]
      {
        var user := new User(list[i]);
        users := users[user.userID := user];
        assert list[..i + 1][..i] == list[..i];
        i := i + 1;
      }
      assert list[..i] == list;
      return true;
    }

    /** Authenticate visits the records in any order. */
    method Authenticate(token: string) returns (r: Option<User>)
      requires Valid()
      ensures r.Some? <==> Known(View(), token)
      ensures r.Some? ==> r.value.userID in users && users[r.value.userID] == r.value && r.value.token == token
    {
      var rest := users.Keys;
      while rest != {}
        invariant rest <= users.Keys
        invariant forall u | u in users && u !in rest :: users[u].token != token
        decreases |rest|
      {
        var u :| u in rest;
        if users[u].token == token {
          assert View()[u].token == token;
          return Some(users[u]);
        }
        rest := rest - {u};
      }
      return None;
    }

    method UpdateUser(userID: string, subdomain: string, token: string) returns (ok: bool)
      requires Valid()
      modifies users.Values
      ensures Valid() && (ok <==> userID in users)
      ensures View() == Apply(old(View()), Update(userID, subdomain, token))
      ensures ok ==> users[userID].subdomain == subdomain
                     && users[userID].token == if token == "" then old(users[userID].token) else token
      ensures forall u | u in users && u != userID :: users[u].Value() == old(users[u].Value())
    {
      if userID !in users {
        return false;
      }
      var user := users[userID];
      assert forall u | u in users && u != userID :: users[u] != user;
      user.subdomain := subdomain;
      if token != "" {
        user.token := token;
      }
      return true;
    }

    /** A new record under its UserID, over any that was there. */
    method Insert(info: Info) returns (user: User)
      requires Valid()
      modifies this
      ensures Valid() && fresh(user) && user.Value() == info && users == old(users)[info.userID := user]
      ensures View() == old(View())[info.userID := info]
    {
      ghost var before := View();
      user := new User(info);
      users := users[info.userID := user];
      assert forall u | u in users && u != info.userID :: users[u].Value() == before[u];
    }

    /** The record handleAuth makes for an unknown token in public mode. It
        replaces a guest with the same two random bytes. */
    method AddGuest(suffix: string, token: string, now: int) returns (user: User)
      requires Valid()
      modifies this
      ensures Valid() && fresh(user) && user.userID in users && users[user.userID] == user
      ensures user.Value() == Guest(suffix, token, now)
      ensures View() == Apply(old(View()), Change.AddGuest(suffix, token, now))
      ensures user.userID == "Guest_" + suffix && user.subdomain == "guest-" + suffix && user.token == token
      ensures user.createdAt == now && user.isGuest
      ensures users - {user.userID} == old(users) - {user.userID}
    {
      user := Insert(Guest(suffix, token, now));
    }

    /** The end of controlLoop in public mode: only a guest goes. */
    method CleanUpGuest(userID: string) returns (removed: bool)
      requires Valid()
      modifies this
      ensures Valid() && (removed <==> old(userID in users && users[userID].isGuest))
      ensures View() == Apply(old(View()), Change.CleanUpGuest(userID))
      ensures users == if removed then old(users) - {userID} else old(users)
    {
      removed := userID in users && users[userID].isGuest;
      if removed {
        users := users - {userID};
      }
    }

    /** handleAddUser: the creation time in the request is replaced by the clock. */
    method AddUser(info: Info, now: int) returns (ok: bool)
      requires Valid()
      modifies this
      ensures Valid() && (ok <==> info.userID != "" && info.token != "" && info.subdomain != "")
      ensures View() == Apply(old(View()), Add(info, now))
      ensures ok ==> info.userID in users
                     && users[info.userID].Value() == Info(info.userID, info.token, info.subdomain, now, info.isGuest)
      ensures users - {info.userID} == old(users) - {info.userID} && (!ok ==> users == old(users))
    {
      if info.userID == "" || info.token == "" || info.subdomain == "" {
        return false;
      }
      var user := Insert(info.(createdAt := now));
      return true;
    }

    /** handleDeleteUser. */
    method DeleteUser(userID: string) returns (ok: bool)
      requires Valid()
      modifies this
      ensures Valid() && (ok <==> userID != "")
      ensures View() == Apply(old(View()), Delete(userID))
      ensures users == if ok then old(users) - {userID} else old(users)
    {
      if userID == "" {
        return false;
      }
      users := users - {userID};
      return true;
    }

    /** The snapshot SaveToFile takes under the read lock, in any order. */
    method Snapshot() returns (list: seq<Info>)
      requires Valid()
      ensures Lists(list, View()) && Loaded(list) == View()
    {
      list := [];
      var rest := users.Keys;
      while rest != {}
        invariant rest <= users.Keys
        invariant forall i | 0 <= i < |list| ::
                    list[i].userID in users && list[i].userID !in rest && users[list[i].userID].Value() == list[i]
        invariant forall i, j | 0 <= i < j < |list| :: list[i].userID != list[j].userID
        invariant forall u | u in users && u !in rest :: users[u].Value() in list
        decreases |rest|
      {
        var u :| u in rest;
        list := list + [users[u].Value()];
        rest := rest - {u};
      }
      LoadRebuilds(list, View());
    }
  }
}
