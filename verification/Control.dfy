/** handleAuth and the end of controlLoop, over the user store and the session
    manager. */
module Control {
  import opened Wrappers
  import R = Rendezvous
  import Routing
  import Sessions
  import Users

  datatype Config = Config(domain: string, maintenanceMode: bool, allowPublicMode: bool)

  /** How an AUTH is answered. */
  datatype Answer =
    | Maintenance
    | InvalidPayload
    | NotWhitelisted
    | AuthOk(domain: string)
    | AuthOkNotSent

  /** The user that an AUTH is for: one with the token, or else a new guest. */
  predicate UserFor(m: Users.Table, token: string, guest: Users.Info, user: Users.Info) {
    if Users.Known(m, token) then user.userID in m && m[user.userID] == user && user.token == token else user == guest
  }

  /** What is left of the sessions: that of the user is new, or gone again. */
  predicate Kept(before: map<string, Sessions.Session>, after: map<string, Sessions.Session>, userID: string) {
    before - {userID} == after - {userID}
  }

  /** The user with the token, or in public mode a new guest; None if the mod is
      turned away. */
  method Identify(cfg: Config, store: Users.UserStore, token: string, suffix: string, now: int)
    returns (user: Option<Users.User>)
    requires store.Valid()
    modifies store
    ensures store.Valid()
    ensures user == None <==> !Users.Known(old(store.View()), token) && !cfg.allowPublicMode
    ensures user.Some? ==> UserFor(old(store.View()), token, Users.Guest(suffix, token, now), user.value.Value())
    ensures store.View() == if user == None || Users.Known(old(store.View()), token) then old(store.View())
                            else Users.Apply(old(store.View()), Users.AddGuest(suffix, token, now))
  {
    user := store.Authenticate(token);
    if user == None && cfg.allowPublicMode {
      var guest := store.AddGuest(suffix, token, now);
      user := Some(guest);
    }
  }

  /** The new session of the user, and AUTH_OK if it can be written. */
  method Open(cfg: Config, manager: Sessions.SessionManager, userID: string, subdomain: string, token: string,
              sent: bool, t: R.Tid)
    returns (answer: Answer)
    requires manager.Valid() && forall v | v in manager.sessions :: manager.sessions[v].id != t
    modifies manager
    modifies if userID in manager.sessions then {manager.sessions[userID]} else {}
    modifies if userID in manager.sessions then Sessions.ChannelsOf(manager.sessions[userID]) else {}
    ensures manager.Valid() && Kept(old(manager.sessions), manager.sessions, userID)
    ensures userID in old(manager.sessions) ==>
              old(manager.sessions)[userID].View() == R.Closed(old(manager.sessions[userID].View()))
    ensures answer == if sent then AuthOk(subdomain + "." + cfg.domain) else AuthOkNotSent
    ensures userID in manager.sessions <==> sent
    ensures sent ==>
              var x := manager.sessions[userID];
              && x.id == t && x.domain == subdomain + "." + cfg.domain
              && x.View() == R.Sess(userID, subdomain, token, map[], 0)
  {
    var fullDomain := subdomain + "." + cfg.domain;
    var sess := manager.CreateSession(userID, subdomain, fullDomain, token, t);
    if !sent {
      manager.RemoveSession(userID);
      return AuthOkNotSent;
    }
    return AuthOk(fullDomain);
  }

  /** ... and what that makes of all sessions. */
  method OpenAmong(cfg: Config, manager: Sessions.SessionManager, userID: string, subdomain: string, token: string,
                   sent: bool, t: R.Tid)
    returns (answer: Answer)
    requires manager.Valid() && forall v | v in manager.sessions :: manager.sessions[v].id != t
    modifies manager, manager.sessions.Values, manager.Channels()
    ensures manager.Valid() && Kept(old(manager.sessions), manager.sessions, userID)
    ensures forall v | v in old(manager.sessions) :: old(manager.sessions)[v].View() ==
              if v == userID then R.Closed(old(manager.sessions[v].View())) else old(manager.sessions[v].View())
    ensures answer == if sent then AuthOk(subdomain + "." + cfg.domain) else AuthOkNotSent
    ensures userID in manager.sessions <==> sent
    ensures sent ==>
              var x := manager.sessions[userID];
              && x.id == t && x.domain == subdomain + "." + cfg.domain
              && x.View() == R.Sess(userID, subdomain, token, map[], 0)
  {
    answer := Open(cfg, manager, userID, subdomain, token, sent, t);
  }

  /** The rest of handleAuth, when there is a token. */
  method Admit(cfg: Config, store: Users.UserStore, manager: Sessions.SessionManager, token: string,
               suffix: string, now: int, sent: bool, t: R.Tid)
    returns (answer: Answer, user: Option<Users.User>)
    requires store.Valid() && manager.Valid()
    requires forall u | u in manager.sessions :: manager.sessions[u].id != t
    modifies store, manager, manager.sessions.Values, manager.Channels()
    ensures store.Valid() && manager.Valid()
    ensures user == None <==> !Users.Known(old(store.View()), token) && !cfg.allowPublicMode
    ensures user == None ==> answer == NotWhitelisted && manager.sessions == old(manager.sessions)
    ensures user.Some? ==> UserFor(old(store.View()), token, Users.Guest(suffix, token, now), user.value.Value())
    ensures store.View() == if user == None || Users.Known(old(store.View()), token) then old(store.View())
                            else Users.Apply(old(store.View()), Users.AddGuest(suffix, token, now))
    ensures user.Some? ==> Kept(old(manager.sessions), manager.sessions, user.value.userID)
    ensures forall v | v in old(manager.sessions) :: old(manager.sessions)[v].View() ==
              if user.Some? && user.value.userID == v then R.Closed(old(manager.sessions[v].View()))
              else old(manager.sessions[v].View())
    ensures user.Some? ==>
              answer == (if sent then AuthOk(user.value.subdomain + "." + cfg.domain) else AuthOkNotSent)
    ensures user.Some? ==> (sent <==> user.value.userID in manager.sessions)
    ensures user.Some? && sent ==>
              var x := manager.sessions[user.value.userID];
              && x.id == t && x.domain == user.value.subdomain + "." + cfg.domain
              && x.View() == R.Sess(user.value.userID, user.value.subdomain, token, map[], 0)
  {
    user := Identify(cfg, store, token, suffix, now);
    if user == None {
      return NotWhitelisted, user;
    }
    ghost var users, table := store.users, store.View();
    var u := user.value;
    answer := OpenAmong(cfg, manager, u.userID, u.subdomain, u.token, sent, t);
    assert store.users == users && store.View() == table;
  }

  /** `token` is None when the payload cannot be parsed; `suffix` and `now` are
      the random bytes and the clock, `sent` says whether AUTH_OK can be written,
      and `t` names the new session. */
  method HandleAuth(cfg: Config, store: Users.UserStore, manager: Sessions.SessionManager, token: Option<string>,
                    suffix: string, now: int, sent: bool, t: R.Tid)
    returns (answer: Answer, user: Option<Users.User>)
    requires store.Valid() && manager.Valid()
    requires forall u | u in manager.sessions :: manager.sessions[u].id != t
    modifies store, manager, manager.sessions.Values, manager.Channels()
    ensures store.Valid() && manager.Valid()
    ensures answer == Maintenance <==> cfg.maintenanceMode
    ensures answer == InvalidPayload <==> !cfg.maintenanceMode && token == None
    ensures answer == NotWhitelisted <==>
            !cfg.maintenanceMode && token.Some? && !Users.Known(old(store.View()), token.value) && !cfg.allowPublicMode
    ensures user.Some? <==> answer.AuthOk? || answer == AuthOkNotSent
    ensures user.Some? ==> (answer.AuthOk? <==> sent)
    // nothing changes unless there is a user
    ensures user == None ==> manager.sessions == old(manager.sessions) && store.View() == old(store.View())
    // the user is known, or joins as a guest; the guest stays even if AUTH_OK was not sent
    ensures user.Some? ==> token.Some?
    ensures user.Some? ==>
              UserFor(old(store.View()), token.value, Users.Guest(suffix, token.value, now), user.value.Value())
    ensures user.Some? ==>
              store.View() == (if Users.Known(old(store.View()), token.value) then old(store.View())
                               else Users.Apply(old(store.View()), Users.AddGuest(suffix, token.value, now)))
    // the session belongs to that user; an older one is closed, and any other user keeps theirs
    ensures user.Some? ==> Kept(old(manager.sessions), manager.sessions, user.value.userID)
    ensures forall v | v in old(manager.sessions) :: old(manager.sessions)[v].View() ==
              if user.Some? && user.value.userID == v then R.Closed(old(manager.sessions[v].View()))
              else old(manager.sessions[v].View())
    ensures user.Some? ==> (answer.AuthOk? <==> user.value.userID in manager.sessions)
    ensures answer.AuthOk? ==> answer.domain == user.value.subdomain + "." + cfg.domain
    ensures answer.AuthOk? ==>
              var x := manager.sessions[user.value.userID];
              && x.id == t && x.domain == answer.domain
              && x.View() == R.Sess(user.value.userID, user.value.subdomain, token.value, map[], 0)
  {
    user := None;
    if cfg.maintenanceMode {
      return Maintenance, user;
    }
    if token == None {
      return InvalidPayload, user;
    }
    answer, user := Admit(cfg, store, manager, token.value, suffix, now, sent, t);
  }

  /** What controlLoop does when it returns. */
  method EndControl(cfg: Config, store: Users.UserStore, manager: Sessions.SessionManager, userID: string)
    returns (cleaned: bool)
    requires store.Valid() && manager.Valid()
    modifies store, manager
    modifies if userID in manager.sessions then {manager.sessions[userID]} else {}
    modifies if userID in manager.sessions then Sessions.ChannelsOf(manager.sessions[userID]) else {}
    ensures store.Valid() && manager.Valid()
    ensures manager.sessions == old(manager.sessions) - {userID}
    ensures userID in old(manager.sessions) ==>
              old(manager.sessions)[userID].View() == R.Closed(old(manager.sessions[userID].View()))
    ensures store.View() == if cfg.allowPublicMode then Users.Apply(old(store.View()), Users.CleanUpGuest(userID))
                            else old(store.View())
    ensures cleaned <==> cfg.allowPublicMode && userID in old(store.View()) && old(store.View())[userID].isGuest
  {
    manager.RemoveSession(userID);
    assert store.users == old(store.users) && store.View() == old(store.View());
    cleaned := false;
    if cfg.allowPublicMode {
      cleaned := store.CleanUpGuest(userID);
    }
  }

  /** The name a guest is told leads players back to its subdomain: the random bytes
      are written without capitals. */
  lemma GuestNameRoutes(suffix: string, token: string, now: int, domain: string, address: string, dot: bool)
    requires !Routing.HasCapital(suffix) && '\0' !in suffix && '\0' !in domain
    requires Routing.Variant(address, Users.Guest(suffix, token, now).subdomain + "." + domain, dot)
    ensures Routing.ExtractSubdomain(address, domain) == Ok("guest-" + suffix) <==> dot || !Routing.EndsDotted(domain)
  {
    var sub := Users.Guest(suffix, token, now).subdomain;
    assert sub == "guest-" + suffix;
    forall i | 0 <= i < |sub| ensures !('A' <= sub[i] <= 'Z') {
      if i >= 6 { assert sub[i] == suffix[i - 6]; }
    }
    Routing.AdvertisedNameRoutes(address, sub, domain, dot);
  }

  /** GetSessionBySubdomain after extractSubdomain. */
  method RoutePlayer(cfg: Config, manager: Sessions.SessionManager, address: string)
    returns (sess: Option<Sessions.Session>)
    ensures sess.Some? ==> sess.value in manager.sessions.Values
    ensures sess.Some? ==> Routing.ExtractSubdomain(address, cfg.domain) == Ok(sess.value.subdomain)
    ensures sess == None ==> forall u | u in manager.sessions ::
              Routing.ExtractSubdomain(address, cfg.domain) != Ok(manager.sessions[u].subdomain)
  {
    var sub := Routing.ExtractSubdomain(address, cfg.domain);
    if sub.Err? {
      return None;
    }
    sess := manager.GetSessionBySubdomain(sub.value);
  }
}
