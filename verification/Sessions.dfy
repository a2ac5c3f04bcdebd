/** Session and SessionManager as the objects they are. Each method is what one
    thread does between taking and releasing the locks; its effect on the fields
    is the update that Rendezvous makes in the same step. */
module Sessions {
  import opened Wrappers
  import R = Rendezvous
  import Traffic

  // ---------------------------------------------------------------- channels

  /** A connection the mod opened for a player, as handleConnReady holds it. */
  class DataConn {
    const id: R.Tid
    var closed: bool

    constructor (id: R.Tid)
      ensures this.id == id && !closed
    {
      this.id, closed := id, false;
    }

    method Close()
      modifies this
      ensures closed
    {
      closed := true;
    }
  }

  /** chan net.Conn with capacity one. `id` names the player that made it. */
  class Channel {
    const id: R.Tid
    const sess: R.Tid
    const cid: R.ConnId
    var buffer: Option<DataConn>
    var closed: bool

    constructor (id: R.Tid, sess: R.Tid, cid: R.ConnId)
      ensures this.id == id && this.sess == sess && this.cid == cid && IsNew()
    {
      this.id, this.sess, this.cid, buffer, closed := id, sess, cid, None, false;
    }

    predicate IsNew()
      reads this
    {
      !closed && buffer == None
    }

    /** A send on a closed channel panics, one on a full channel blocks. */
    method Send(conn: DataConn)
      requires IsNew()
      modifies this
      ensures !closed && buffer == Some(conn)
    {
      buffer := Some(conn);
    }

    /** A second close panics. */
    method Close()
      requires !closed
      modifies this
      ensures closed && buffer == old(buffer)
    {
      closed := true;
    }

    /** The receive of the select: a buffered value comes before the end. */
    method Receive() returns (conn: Option<DataConn>)
      requires buffer.Some? || closed
      modifies this
      ensures conn == old(buffer) && buffer == None && closed == old(closed)
    {
      conn := buffer;
      buffer := None;
    }
  }

  // ---------------------------------------------------------------- sessions

  class Session {
    const id: R.Tid
    const userID: string
    const subdomain: string
    const domain: string
    const token: string
    var pendingConns: map<R.ConnId, Channel>
    var closes: nat
    const rxBytes: Traffic.Counter
    const txBytes: Traffic.Counter
    var lastRxBytes: nat
    var lastTxBytes: nat
    var currentRxSpeed: nat
    var currentTxSpeed: nat

    constructor (id: R.Tid, userID: string, subdomain: string, domain: string, token: string)
      ensures this.id == id && Valid() && View() == R.Sess(userID, subdomain, token, map[], 0)
      ensures this.userID == userID && this.subdomain == subdomain && this.domain == domain && this.token == token
      ensures pendingConns == map[] && fresh(rxBytes) && fresh(txBytes)
    {
      this.id, this.userID, this.subdomain, this.domain, this.token := id, userID, subdomain, domain, token;
      pendingConns, closes := map[], 0;
      rxBytes := new Traffic.Counter();
      txBytes := new Traffic.Counter();
      lastRxBytes, lastTxBytes, currentRxSpeed, currentTxSpeed := 0, 0, 0, 0;
    }

    /** The entries are channels of this session on which nothing happened. */
    predicate Valid()
      reads this, pendingConns.Values
    {
      forall c | c in pendingConns :: pendingConns[c].IsNew() && pendingConns[c].sess == id && pendingConns[c].cid == c
    }

    function View(): R.Sess
      reads this
    {
      R.Sess(userID, subdomain, token, map c | c in pendingConns :: pendingConns[c].id, closes)
    }

    /** Called by player `p`. */
    method AddPendingConn(connID: R.ConnId, p: R.Tid) returns (ch: Channel)
      requires Valid()
      modifies this`pendingConns
      ensures Valid() && fresh(ch) && ch.id == p && pendingConns == old(pendingConns)[connID := ch]
      ensures View() == R.Registered(old(View()), connID, p)
    {
      ch := new Channel(p, id, connID);
      pendingConns := pendingConns[connID := ch];
    }

    method ResolvePendingConn(connID: R.ConnId, conn: DataConn) returns (ok: bool)
      requires Valid()
      modifies this`pendingConns, pendingConns.Values
      ensures Valid() && (ok <==> connID in old(pendingConns))
      ensures View() == R.Dropped(old(View()), connID) && pendingConns == old(pendingConns) - {connID}
      ensures ok ==> var ch := old(pendingConns)[connID]; ch.buffer == Some(conn) && !ch.closed
    {
      ok := connID in pendingConns;
      if ok {
        var ch := pendingConns[connID];
        pendingConns := pendingConns - {connID};
        ch.Send(conn);
      }
    }

    /** The timeout branch of WaitForDataConn: whatever channel is under the conn_id,
        the waiter's own or another's, can no longer be resolved or closed. It stays
        open and empty, and the other entries stay. */
    method Forget(connID: R.ConnId)
      requires Valid()
      modifies this`pendingConns
      ensures Valid() && View() == R.Dropped(old(View()), connID)
      ensures forall c | c in old(pendingConns) && c != connID ::
                c in pendingConns && pendingConns[c] == old(pendingConns)[c]
      ensures connID in old(pendingConns) ==>
                old(pendingConns)[connID].IsNew() && old(pendingConns)[connID] !in pendingConns.Values
    {
      pendingConns := pendingConns - {connID};
    }

    /** Closes every registered channel once, in any order. */
    method Close()
      requires Valid()
      modifies this`pendingConns, this`closes, pendingConns.Values
      ensures Valid() && View() == R.Closed(old(View()))
      ensures pendingConns == map[]
      ensures forall c | c in old(pendingConns) ::
                old(pendingConns)[c].closed && old(pendingConns)[c].buffer == None
    {
      ghost var before := pendingConns;
      while pendingConns != map[]
        invariant closes == old(closes) && pendingConns.Keys <= before.Keys
        invariant forall c | c in before :: before[c].cid == c &&
                    if c in pendingConns then pendingConns[c] == before[c] && before[c].IsNew()
                    else before[c].closed && before[c].buffer == None
        decreases pendingConns.Keys
      {
        var c :| c in pendingConns;
        pendingConns[c].Close();
        pendingConns := pendingConns - {c};
      }
      closes := closes + 1;
    }

    /** The counters were sampled when the last samples were `rx` and `tx`. */
    predicate Sampled(rx: nat, tx: nat)
      reads this, rxBytes, txBytes
    {
      && lastRxBytes == rxBytes.value && currentRxSpeed == Traffic.Minus(rxBytes.value, rx)
      && lastTxBytes == txBytes.value && currentTxSpeed == Traffic.Minus(txBytes.value, tx)
    }

    /** One session of a tick of statsLoop. */
    method Sample()
      modifies this`lastRxBytes, this`lastTxBytes, this`currentRxSpeed, this`currentTxSpeed
      ensures Sampled(old(lastRxBytes), old(lastTxBytes))
    {
      var currentRx, currentTx := rxBytes.value, txBytes.value;
      currentRxSpeed := Traffic.Minus(currentRx, lastRxBytes);
      currentTxSpeed := Traffic.Minus(currentTx, lastTxBytes);
      lastRxBytes, lastTxBytes := currentRx, currentTx;
    }
  }

  /** A wait that times out leaves its session as it found it if and only if the
      conn_id was not in use; otherwise the entry of another waiter is gone. */
  lemma TimeoutRestoresIffIdWasFree(x: R.Sess, c: R.ConnId, p: R.Tid)
    ensures var after := R.Dropped(R.Registered(x, c, p), c);
            && (after == x <==> c !in x.pending)
            && forall k | k in x.pending && k != c :: k in after.pending && after.pending[k] == x.pending[k]
  {
    var after := R.Dropped(R.Registered(x, c, p), c);
    assert c !in after.pending;
    if c !in x.pending { assert after.pending == x.pending; }
  }

  // ----------------------------------------------------------------- manager

  /** The channels registered with a session. */
  function ChannelsOf(s: Session): set<Channel>
    reads s
  {
    s.pendingConns.Values
  }

  class SessionManager {
    var sessions: map<string, Session>

    constructor ()
      ensures sessions == map[] && Valid()
    {
      sessions := map[];
    }

    ghost function Channels(): set<Channel>
      reads this, sessions.Values
    {
      set u, c | u in sessions && c in sessions[u].pendingConns :: sessions[u].pendingConns[c]
    }

    /** Each session is under its own UserID, and no two have the same id. */
    ghost predicate Valid()
      reads this, sessions.Values, Channels()
    {
      && (forall u | u in sessions :: sessions[u].userID == u && sessions[u].Valid())
      && (forall u, v | u in sessions && v in sessions && u != v :: sessions[u].id != sessions[v].id)
    }

    /** `t` names the new session. */
    method CreateSession(userID: string, subdomain: string, domain: string, token: string, t: R.Tid)
      returns (sess: Session)
      requires Valid() && forall u | u in sessions :: sessions[u].id != t
      modifies this
      modifies if userID in sessions then {sessions[userID]} else {}
      modifies if userID in sessions then ChannelsOf(sessions[userID]) else {}
      ensures Valid() && fresh(sess) && sessions == old(sessions)[userID := sess]
      ensures sess.id == t && sess.View() == R.Sess(userID, subdomain, token, map[], 0) && sess.domain == domain
      ensures sess.pendingConns == map[]
      ensures userID in old(sessions) ==> var kicked := old(sessions)[userID];
                kicked.View() == R.Closed(old(sessions[userID].View()))
                && forall c | c in old(sessions[userID].pendingConns) :: old(sessions[userID].pendingConns)[c].closed
    {
      if userID in sessions {
        sessions[userID].Close();
      }
      sess := new Session(t, userID, subdomain, domain, token);
      sessions := sessions[userID := sess];
    }

    method RemoveSession(userID: string)
      requires Valid()
      modifies this
      modifies if userID in sessions then {sessions[userID]} else {}
      modifies if userID in sessions then ChannelsOf(sessions[userID]) else {}
      ensures Valid() && sessions == old(sessions) - {userID}
      ensures userID in old(sessions) ==> var removed := old(sessions)[userID];
                removed.View() == R.Closed(old(sessions[userID].View()))
                && forall c | c in old(sessions[userID].pendingConns) :: old(sessions[userID].pendingConns)[c].closed
    {
      if userID in sessions {
        sessions[userID].Close();
        sessions := sessions - {userID};
      }
    }

    /** Any session with that subdomain, and one if there is one. */
    method GetSessionBySubdomain(subdomain: string) returns (sess: Option<Session>)
      ensures sess.Some? <==> exists u :: u in sessions && sessions[u].subdomain == subdomain
      ensures sess.Some? ==> sess.value in sessions.Values && sess.value.subdomain == subdomain
    {
      var rest := sessions.Keys;
      while rest != {}
        invariant rest <= sessions.Keys
        invariant forall u | u in sessions && u !in rest :: sessions[u].subdomain != subdomain
        decreases |rest|
      {
        var u :| u in rest;
        if sessions[u].subdomain == subdomain {
          return Some(sessions[u]);
        }
        rest := rest - {u};
      }
      return None;
    }

    /** A tick of statsLoop. */
    method SampleAll()
      requires Valid()
      modifies sessions.Values
      ensures Valid() && forall u | u in sessions :: sessions[u].View() == old(sessions[u].View())
      ensures forall u | u in sessions ::
                sessions[u].Sampled(old(sessions[u].lastRxBytes), old(sessions[u].lastTxBytes))
    {
      var rest := sessions.Keys;
      while rest != {}
        invariant rest <= sessions.Keys
        invariant forall u | u in sessions ::
                    sessions[u].pendingConns == old(sessions[u].pendingConns)
                    && sessions[u].closes == old(sessions[u].closes)
        invariant forall u | u in rest ::
                    sessions[u].lastRxBytes == old(sessions[u].lastRxBytes)
                    && sessions[u].lastTxBytes == old(sessions[u].lastTxBytes)
        invariant forall u | u in sessions && u !in rest ::
                    sessions[u].Sampled(old(sessions[u].lastRxBytes), old(sessions[u].lastTxBytes))
        decreases rest
      {
        var u :| u in rest;
        sessions[u].Sample();
        rest := rest - {u};
      }
    }

    /** The scan of handleConnReady, in any order. */
    method FindPending(connID: R.ConnId) returns (owner: Option<string>)
      ensures owner == None <==> forall u | u in sessions :: connID !in sessions[u].pendingConns
      ensures owner.Some? ==> owner.value in sessions && connID in sessions[owner.value].pendingConns
    {
      var rest := sessions.Keys;
      while rest != {}
        invariant rest <= sessions.Keys
        invariant forall u | u in sessions && u !in rest :: connID !in sessions[u].pendingConns
        decreases rest
      {
        var u :| u in rest;
        if connID in sessions[u].pendingConns {
          return Some(u);
        }
        rest := rest - {u};
      }
      return None;
    }

    /** handleConnReady after parsing: stops at the first session found to have the
        conn_id, that of `owner`. */
    method HandleConnReady(conn: DataConn, connID: R.ConnId, token: string)
      returns (out: R.Outcome, owner: Option<string>)
      requires Valid() && !conn.closed
      modifies conn, sessions.Values, Channels()
      ensures Valid() && (conn.closed <==> !out.Delivered?)
      ensures out == R.NotFound <==> owner == None
      ensures owner == None <==> forall u | u in sessions :: connID !in old(sessions[u].pendingConns)
      ensures owner.Some? ==> owner.value in sessions && connID in old(sessions[owner.value].pendingConns)
      ensures owner.Some? ==> (out.Delivered? <==> sessions[owner.value].token == token)
      ensures forall u | u in sessions :: sessions[u].View() ==
                if out.Delivered? && owner == Some(u) then R.Dropped(old(sessions[u].View()), connID)
                else old(sessions[u].View())
      ensures out.Delivered? ==> var ch := old(sessions[owner.value].pendingConns)[connID];
                                 out.p == ch.id && !ch.closed && ch.buffer == Some(conn)
    {
      owner := FindPending(connID);
      if owner == None {
        conn.Close();
        return R.NotFound, owner;
      }
      var sess := sessions[owner.value];
      if sess.token != token {
        conn.Close();
        return R.Refused, owner;
      }
      var p := sess.pendingConns[connID].id;
      var ok := sess.ResolvePendingConn(connID, conn);
      return R.Delivered(p), owner;
    }
  }
}
