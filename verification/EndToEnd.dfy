/** From the bytes a player sends to the mod it is bridged to: the rendezvous
    protocol with the handshake parser and extractSubdomain in place. */
module EndToEnd {
  import opened Wrappers
  import opened Bytes
  import opened Rendezvous
  import opened RendezvousInvariant
  import opened RendezvousSteps
  import opened RendezvousProperties
  import Handshake
  import Routing

  /** The protocol of a relay configured for `domain`. */
  ghost predicate Serves(st: State, domain: string) {
    forall input :: st.route(input) == Routing.Route(input, domain)
  }

  /** The first packet in `input` carries a variant of the advertised name of
      `sub`, as AUTH_OK told it to the mod. */
  ghost predicate AsksFor(input: seq<Byte>, packet: Handshake.Packet, sub: string, domain: string) {
    && packet.Acceptable() && packet.Bytes() <= input
    && sub != "" && !Routing.HasCapital(sub) && '\0' !in sub && '\0' !in domain
    && exists dot :: (dot || !Routing.EndsDotted(domain))
                  && Routing.Variant(Routing.Text(packet.address), sub + "." + domain, dot)
  }

  lemma AskedRoute(input: seq<Byte>, packet: Handshake.Packet, sub: string, domain: string)
    requires AsksFor(input, packet, sub, domain)
    ensures Routing.Route(input, domain) == Some(sub)
  {
    var rest := input[|packet.Bytes()|..];
    assert input == packet.Bytes() + rest;
    var dot :| (dot || !Routing.EndsDotted(domain))
            && Routing.Variant(Routing.Text(packet.address), sub + "." + domain, dot);
    Routing.HandshakeRoutes(packet, rest, sub, domain, dot);
  }

  ghost predicate Asks(st: State, t: Tid, packet: Handshake.Packet, sub: string, domain: string) {
    Serves(st, domain) && IsPlayer(st, t) && AsksFor(st.threads[t].role.input, packet, sub, domain)
  }

  /** The subdomain the handler of such a player looks for. */
  lemma AskedSub(st: State, t: Tid, packet: Handshake.Packet, sub: string, domain: string)
    requires Reachable(st) && Asks(st, t, packet, sub, domain)
    ensures st.threads[t].role.sub == Some(sub)
  {
    ReachableInv(st);
    OwnRoute(st, t);
    AskedRoute(st.threads[t].role.input, packet, sub, domain);
  }

  lemma OwnRoute(st: State, t: Tid)
    requires IsPlayer(st, t) && ThreadOk(st, t)
    ensures st.threads[t].role.sub == st.route(st.threads[t].role.input)
  {
  }

  /** Such a player finds a session with that subdomain whenever one is mapped at
      its lookup, and never another one. */
  lemma AdvertisedPlayerIsRouted(st: State, t: Tid, packet: Handshake.Packet, sub: string, domain: string)
    requires Reachable(st) && Asks(st, t, packet, sub, domain) && st.threads[t].pc.PScan?
    ensures forall s :: Can(st, t, Route(Find(s))) <==> Mapped(st, s) && st.sess[s].sub == sub
    ensures Can(st, t, Route(NoSession)) <==> forall s | Mapped(st, s) :: st.sess[s].sub != sub
  {
    ReachableInv(st);
    AskedSub(st, t, packet, sub, domain);
    MappedValues(st);
    LookupFinds(st, t, sub);
  }

  lemma LookupFinds(st: State, t: Tid, sub: string)
    requires IsPlayer(st, t) && st.threads[t].pc.PScan? && st.threads[t].role.sub == Some(sub)
    requires forall s :: Mapped(st, s) <==> s in st.sessions.Values && s in st.sess
    ensures forall s :: Can(st, t, Route(Find(s))) <==> Mapped(st, s) && st.sess[s].sub == sub
    ensures Can(st, t, Route(NoSession)) <==> forall s | Mapped(st, s) :: st.sess[s].sub != sub
  {
  }

  lemma MappedValues(st: State)
    requires Inv(st)
    ensures forall s :: Mapped(st, s) <==> s in st.sessions.Values && s in st.sess
  {
    forall s | s in st.sessions.Values && s in st.sess ensures Mapped(st, s) {
      var u :| u in st.sessions && st.sessions[u] == s;
      assert MapOk(st, u);
    }
  }

  /** If it is bridged, then to a data connection that presented the token of a
      session with that subdomain. */
  lemma AdvertisedPlayerIsBridged(st: State, t: Tid, packet: Handshake.Packet, sub: string, domain: string)
    requires Reachable(st) && Asks(st, t, packet, sub, domain) && Matched(st.threads[t].pc)
    ensures var pc := st.threads[t].pc;
            && pc.s in st.sess && st.sess[pc.s].sub == sub
            && IsData(st, pc.d) && st.threads[pc.d].role == Data(pc.c, st.sess[pc.s].token)
  {
    AskedRoute(st.threads[t].role.input, packet, sub, domain);
    BridgedPairsMatch(st, t);
  }
}
