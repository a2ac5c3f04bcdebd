/** extractSubdomain, and the way from the first bytes of a player connection to
    the subdomain of a session. Strings are taken one character a byte, and
    lower-casing is that of ASCII. */
module Routing {
  import opened Wrappers
  import opened Bytes
  import Handshake
  import VarInt

  // ------------------------------------------------------------ the strings

  function LowerChar(c: char): char {
    if 'A' <= c <= 'Z' then (c as int + 32) as char else c
  }

  /** strings.ToLower. */
  function Lower(s: string): (r: string)
    ensures |r| == |s|
    ensures forall i | 0 <= i < |s| :: r[i] == LowerChar(s[i])
  {
    if s == "" then "" else [LowerChar(s[0])] + Lower(s[1..])
  }

  predicate IsLower(s: string) {
    Lower(s) == s
  }

  /** A character in 'A'..'Z' and one in 'a'..'z' that are the same letter. */
  predicate IsCapitalOf(c: char, d: char) {
    'A' <= c <= 'Z' && d as int == c as int + 32
  }

  predicate SameLetter(c: char, d: char) {
    c == d || IsCapitalOf(c, d) || IsCapitalOf(d, c)
  }

  predicate SameUpToCase(s: string, t: string) {
    |s| == |t| && forall i | 0 <= i < |s| :: SameLetter(s[i], t[i])
  }

  predicate HasCapital(s: string) {
    exists i :: 0 <= i < |s| && 'A' <= s[i] <= 'Z'
  }

  predicate HasSuffix(s: string, t: string) {
    |t| <= |s| && s[|s| - |t|..] == t
  }

  /** strings.Split(s, "\x00")[0]. */
  function BeforeNul(s: string): (r: string)
    ensures r <= s && '\0' !in r
    ensures '\0' !in s ==> r == s
    ensures |r| < |s| ==> s[|r|] == '\0'
  {
    if s == "" || s[0] == '\0' then "" else [s[0]] + BeforeNul(s[1..])
  }

  /** strings.TrimSuffix(s, "."). */
  function TrimDot(s: string): string {
    if HasSuffix(s, ".") then s[..|s| - 1] else s
  }

  datatype Error = WrongDomain | EmptySubdomain

  /** extractSubdomain. */
  function ExtractSubdomain(serverAddress: string, domain: string): Result<string, Error> {
    var addr := TrimDot(BeforeNul(serverAddress));
    if !HasSuffix(Lower(addr), "." + Lower(domain)) then Err(WrongDomain) else
    var sub := Lower(addr[..|addr| - |domain| - 1]);
    if sub == "" then Err(EmptySubdomain) else Ok(sub)
  }

  // ------------------------------------------------------------- letter case

  /** Lower-casing, without its definition: the same text up to letter case, and no
      capital left. */
  lemma LowerIff(s: string, t: string)
    ensures Lower(s) == t <==> SameUpToCase(s, t) && !HasCapital(t)
  {
    if SameUpToCase(s, t) && !HasCapital(t) {
      forall i | 0 <= i < |s| ensures Lower(s)[i] == t[i] {
        assert SameLetter(s[i], t[i]);
      }
    }
  }

  lemma IsLowerIff(s: string)
    ensures IsLower(s) <==> !HasCapital(s)
  {
    LowerIff(s, s);
  }

  lemma SameLowerIff(s: string, t: string)
    ensures Lower(s) == Lower(t) <==> SameUpToCase(s, t)
  {
    if Lower(s) == Lower(t) {
      forall i | 0 <= i < |s| ensures SameLetter(s[i], t[i]) {
        assert LowerChar(s[i]) == Lower(s)[i] == Lower(t)[i] == LowerChar(t[i]);
      }
    }
    if SameUpToCase(s, t) {
      forall i | 0 <= i < |s| ensures Lower(s)[i] == Lower(t)[i] {
        assert SameLetter(s[i], t[i]);
      }
    }
  }

  // ------------------------------------------------------------- properties

  lemma LowerConcat(a: string, b: string)
    ensures Lower(a + b) == Lower(a) + Lower(b)
  {
  }

  /** `address` is `p`, a dot and `q`, perhaps a final dot, and perhaps a marker that
      starts with NUL. Without the final dot the rest does not end in one. */
  predicate Parts(address: string, p: string, q: string, dot: bool, marker: string) {
    && address == p + "." + q + (if dot then "." else "") + marker
    && '\0' !in p && '\0' !in q && (marker == "" || marker[0] == '\0')
    && (dot || (q != "" && q[|q| - 1] != '.'))
  }

  /** In such an address `p` spells `sub` and `q` the domain, in any letter case, and
      `sub` has no capital. */
  predicate Spelling(address: string, domain: string, sub: string, p: string, q: string, dot: bool, marker: string) {
    && Parts(address, p, q, dot, marker)
    && SameUpToCase(q, domain) && SameUpToCase(p, sub) && sub != "" && !HasCapital(sub)
  }

  /** The same of what extractSubdomain makes of it. */
  predicate Trimmed(address: string, domain: string, sub: string, p: string, q: string) {
    && TrimDot(BeforeNul(address)) == p + "." + q
    && Lower(q) == Lower(domain) && Lower(p) == sub && sub != ""
  }

  /** Exactly when extractSubdomain answers `sub`. */
  lemma ExtractsIff(address: string, domain: string, sub: string)
    ensures ExtractSubdomain(address, domain) == Ok(sub) <==>
            exists p, q, dot, marker :: Spelling(address, domain, sub, p, q, dot, marker)
  {
    if ExtractSubdomain(address, domain) == Ok(sub) {
      var p, q := ExtractedSpelling(address, domain, sub);
      var dot, marker := PartsOf(address, p, q);
      LowerIff(p, sub);
      SameLowerIff(q, domain);
      assert Spelling(address, domain, sub, p, q, dot, marker);
    }
    if p, q, dot, marker :| Spelling(address, domain, sub, p, q, dot, marker) {
      PartsAreTrimmed(address, p, q, dot, marker);
      LowerIff(p, sub);
      SameLowerIff(q, domain);
      SpellingIsExtracted(address, domain, p, q);
    }
  }

  lemma PartsOf(address: string, p: string, q: string) returns (dot: bool, marker: string)
    requires TrimDot(BeforeNul(address)) == p + "." + q
    ensures Parts(address, p, q, dot, marker)
  {
    var kept := BeforeNul(address);
    marker := address[|kept|..];
    assert address == kept + marker;
    dot := HasSuffix(kept, ".");
    if dot {
      assert kept == p + "." + q + ".";
    } else {
      EndsInDot(kept);
      assert kept[|kept| - 1] == (p + "." + q)[|p| + |q|];
    }
    NulIsNowhere(p, q, kept);
  }

  lemma NulIsNowhere(p: string, q: string, kept: string)
    requires p + "." + q <= kept && '\0' !in kept
    ensures '\0' !in p && '\0' !in q
  {
    assert forall i | 0 <= i < |p| :: p[i] == kept[i];
    assert forall i | 0 <= i < |q| :: q[i] == kept[|p| + 1 + i];
  }

  lemma PartsAreTrimmed(address: string, p: string, q: string, dot: bool, marker: string)
    requires Parts(address, p, q, dot, marker)
    ensures TrimDot(BeforeNul(address)) == p + "." + q
  {
    var host := p + "." + q;
    var kept := host + (if dot then "." else "");
    BeforeMarker(kept, marker);
    if !dot { EndsInDot(host); }
    DotIsTrimmed(host, dot);
  }

  lemma ExtractedSpelling(address: string, domain: string, sub: string) returns (p: string, q: string)
    requires ExtractSubdomain(address, domain) == Ok(sub)
    ensures Trimmed(address, domain, sub, p, q)
  {
    var addr := TrimDot(BeforeNul(address));
    var k := |addr| - |domain| - 1;
    p, q := addr[..k], addr[k + 1..];
    DomainBehindDot(addr, domain, k);
  }

  lemma DomainBehindDot(addr: string, domain: string, k: nat)
    requires |addr| == k + 1 + |domain| && Lower(addr)[k..] == "." + Lower(domain)
    ensures addr == addr[..k] + "." + addr[k + 1..] && Lower(addr[k + 1..]) == Lower(domain)
  {
    assert LowerChar(addr[k]) == Lower(addr)[k..][0] == '.';
    forall i | 0 <= i < |domain| ensures Lower(addr[k + 1..])[i] == Lower(domain)[i] {
      assert Lower(addr)[k..][i + 1] == LowerChar(addr[k + 1 + i]);
    }
  }

  lemma SpellingIsExtracted(address: string, domain: string, p: string, q: string)
    requires Trimmed(address, domain, Lower(p), p, q)
    ensures ExtractSubdomain(address, domain) == Ok(Lower(p))
  {
    LowerSuffix(p, q, domain);
    assert (p + "." + q)[..|p|] == p;
  }

  lemma LowerSuffix(p: string, q: string, domain: string)
    requires Lower(q) == Lower(domain)
    ensures HasSuffix(Lower(p + "." + q), "." + Lower(domain))
  {
    LowerDotted(p, q);
    EndsWith(Lower(p), ".", Lower(q));
  }

  lemma LowerDotted(p: string, q: string)
    ensures Lower(p + "." + q) == Lower(p) + "." + Lower(q)
  {
    LowerConcat(p + ".", q);
    LowerConcat(p, ".");
    assert Lower(".") == ".";
  }

  lemma EndsWith(a: string, b: string, c: string)
    ensures HasSuffix(a + b + c, b + c)
  {
    assert a + b + c == a + (b + c);
  }

  /** Only names without a capital come out, so a session whose Subdomain has one is
      never found. */
  lemma ExtractedIsLower(address: string, domain: string)
    requires ExtractSubdomain(address, domain).Ok?
    ensures !HasCapital(ExtractSubdomain(address, domain).value)
  {
    ExtractsIff(address, domain, ExtractSubdomain(address, domain).value);
  }

  /** What a client may send for the advertised name `host`: any letter case,
      possibly a final dot, possibly a marker that starts with NUL. */
  ghost predicate Variant(address: string, host: string, dot: bool) {
    exists h, marker: string :: Written(address, host, dot, h, marker)
  }

  predicate Written(address: string, host: string, dot: bool, h: string, marker: string) {
    && address == h + (if dot then "." else "") + marker
    && SameUpToCase(h, host) && (marker == "" || marker[0] == '\0')
  }

  lemma BeforeMarker(h: string, marker: string)
    requires '\0' !in h && (marker == "" || marker[0] == '\0')
    ensures BeforeNul(h + marker) == h
  {
    CutIsHead(h + marker, BeforeNul(h + marker), h, marker);
  }

  /** A head of `s` without NUL that ends at a NUL or at the end is the only one. */
  lemma CutIsHead(s: string, r: string, h: string, marker: string)
    requires s == h + marker && '\0' !in h && (marker == "" || marker[0] == '\0')
    requires r <= s && '\0' !in r && (|r| < |s| ==> s[|r|] == '\0')
    ensures r == h
  {
    assert s[..|h|] == h && s[|h|..] == marker;
  }

  lemma CaseKeepsNul(h: string, host: string)
    requires SameUpToCase(h, host) && '\0' !in host
    ensures '\0' !in h
  {
    forall i | 0 <= i < |h| ensures h[i] != '\0' {
      assert SameLetter(h[i], host[i]);
      assert host[i] in host;
    }
  }

  /** With a dot in front, the domain ends in a dot. */
  predicate EndsDotted(domain: string) {
    domain == "" || domain[|domain| - 1] == '.'
  }

  /** The advertised name leads back to its subdomain in every variant, except
      that a domain which itself ends in a dot needs the client's extra dot. */
  lemma AdvertisedNameRoutes(address: string, sub: string, domain: string, dot: bool)
    requires sub != "" && !HasCapital(sub) && '\0' !in sub && '\0' !in domain
    requires Variant(address, sub + "." + domain, dot)
    ensures ExtractSubdomain(address, domain) == Ok(sub) <==> dot || !EndsDotted(domain)
  {
    var host := sub + "." + domain;
    var h, marker :| Written(address, host, dot, h, marker);
    CaseKeepsNul(h, host);
    var kept := h + (if dot then "." else "");
    BeforeMarker(kept, marker);
    assert BeforeNul(address) == kept;
    LastCharOfHost(h, domain, sub);
    if dot || !EndsDotted(domain) {
      DotIsTrimmed(h, dot);
      SameLowerIff(h, host);
      IsLowerIff(sub);
      WholeNameRoutes(address, h, sub, domain);
    } else {
      ShortNameFails(address, sub, domain);
    }
  }

  lemma DotIsTrimmed(h: string, dot: bool)
    requires dot || !HasSuffix(h, ".")
    ensures TrimDot(h + (if dot then "." else "")) == h
  {
  }

  lemma WholeNameRoutes(address: string, h: string, sub: string, domain: string)
    requires TrimDot(BeforeNul(address)) == h && sub != "" && IsLower(sub)
    requires |h| == |sub| + 1 + |domain| && Lower(h) == Lower(sub + "." + domain)
    ensures ExtractSubdomain(address, domain) == Ok(sub)
  {
    SplitHost(h, sub, domain);
    SpellingIsExtracted(address, domain, h[..|sub|], h[|sub| + 1..]);
  }

  lemma ShortNameFails(address: string, sub: string, domain: string)
    requires |TrimDot(BeforeNul(address))| == |sub| + |domain|
    ensures ExtractSubdomain(address, domain) != Ok(sub)
  {
  }

  lemma EndsInDot(s: string)
    requires s != ""
    ensures HasSuffix(s, ".") <==> s[|s| - 1] == '.'
  {
    assert s[|s| - 1..] == [s[|s| - 1]];
  }

  lemma LastCharOfHost(h: string, domain: string, sub: string)
    requires SameUpToCase(h, sub + "." + domain)
    ensures HasSuffix(h, ".") <==> EndsDotted(domain)
  {
    var n := |sub| + |domain|;
    EndsInDot(h);
    assert SameLetter(h[n], (sub + "." + domain)[n]);
  }

  lemma SplitHost(h: string, sub: string, domain: string)
    requires |h| == |sub| + 1 + |domain| && Lower(h) == Lower(sub + "." + domain)
    ensures h == h[..|sub|] + "." + h[|sub| + 1..]
    ensures Lower(h[..|sub|]) == Lower(sub) && Lower(h[|sub| + 1..]) == Lower(domain)
  {
    var host := sub + "." + domain;
    assert forall i | 0 <= i < |h| :: LowerChar(h[i]) == LowerChar(host[i]);
    assert LowerChar(h[|sub|]) == '.';
  }

  // ------------------------------------------------- from bytes to a session

  function Text(bs: seq<Byte>): (s: string)
    ensures |s| == |bs|
    ensures forall i | 0 <= i < |bs| :: s[i] == bs[i] as int as char
  {
    if bs == [] then "" else [bs[0] as int as char] + Text(bs[1..])
  }

  /** The subdomain handlePlayerConnection looks up for a connection that
      delivers `input`, or None when it hangs up before. */
  function Route(input: seq<Byte>, domain: string): Option<string> {
    var p := Handshake.Parse(input);
    if p.error.Some? then None else
    match ExtractSubdomain(Text(p.address), domain)
    case Ok(sub) => Some(sub)
    case Err(_) => None
  }

  /** A handshake as the client encodes it. */
  function EncodeHandshake(version: nat, address: seq<Byte>, port: seq<Byte>, next: nat): Handshake.Packet {
    var body := VarInt.Encode(0) + VarInt.Encode(version) + VarInt.Encode(|address|) + address + port
                + VarInt.Encode(next);
    Handshake.Packet(VarInt.Encode(|body|), VarInt.Encode(0), VarInt.Encode(version),
                     VarInt.Encode(|address|), address, port, VarInt.Encode(next))
  }

  lemma EncodedIsAcceptable(version: nat, address: seq<Byte>, port: seq<Byte>, next: nat)
    requires version < 0x400_0000_0000 && next < 0x400_0000_0000 && |address| <= 255 && |port| == 2
    ensures EncodeHandshake(version, address, port, next).Acceptable()
  {
    VarInt.RoundTrip(version, []);
    VarInt.RoundTrip(next, []);
    VarInt.RoundTrip(|address|, []);
    VarInt.RoundTrip(0, []);
    var p := EncodeHandshake(version, address, port, next);
    var size := |p.id| + |p.version| + |p.addressLength| + |address| + 2 + |p.next|;
    VarInt.RoundTrip(size, []);
    VarInt.EncodeSum(0);
    VarInt.EncodeSum(|address|);
    VarInt.EncodeSum(size);
  }

  /** A player is looked up under `sub` exactly if its bytes start with an acceptable
      packet and extractSubdomain answers `sub` for the address in it. */
  lemma RoutesIff(input: seq<Byte>, domain: string, sub: string)
    ensures Route(input, domain) == Some(sub) <==> exists p :: RoutedBy(input, domain, sub, p)
  {
    var q := Handshake.Parse(input);
    if q.error == None {
      Handshake.AcceptedIffPacket(input, q.address, q.used);
      var p: Handshake.Packet :| Handshake.IsPacketOf(p, q.address, input[..q.used]);
      assert p.Bytes() <= input;
      assert RoutedBy(input, domain, sub, p) <==> Route(input, domain) == Some(sub);
    }
    forall p | RoutedBy(input, domain, sub, p) ensures Route(input, domain) == Some(sub) {
      RoutedByIsRoute(input, domain, sub, p);
    }
  }

  predicate RoutedBy(input: seq<Byte>, domain: string, sub: string, p: Handshake.Packet) {
    p.Acceptable() && p.Bytes() <= input && ExtractSubdomain(Text(p.address), domain) == Ok(sub)
  }

  lemma RoutedByIsRoute(input: seq<Byte>, domain: string, sub: string, p: Handshake.Packet)
    requires RoutedBy(input, domain, sub, p)
    ensures Route(input, domain) == Some(sub)
  {
    PacketIsParsed(input, p, p.Bytes());
    RouteOfParsed(input, domain, p.address, |p.Bytes()|);
  }

  lemma PacketIsParsed(input: seq<Byte>, p: Handshake.Packet, bytes: seq<Byte>)
    requires p.Acceptable() && bytes == p.Bytes() && bytes <= input
    ensures Handshake.Parse(input) == Handshake.Parsed(p.address, None, |bytes|)
  {
    var rest := input[|bytes|..];
    Handshake.AcceptsPacket(p, rest);
    assert input == bytes + rest;
  }

  lemma RouteOfParsed(input: seq<Byte>, domain: string, address: seq<Byte>, used: nat)
    requires Handshake.Parse(input) == Handshake.Parsed(address, None, used)
    ensures Route(input, domain) == match ExtractSubdomain(Text(address), domain)
                                    case Ok(sub) => Some(sub)
                                    case Err(_) => None
  {
  }

  /** The way in and back: a client whose handshake carries the advertised name
      of a lower case subdomain in any variant is routed to that subdomain,
      whatever it sends after the handshake. */
  lemma HandshakeRoutes(p: Handshake.Packet, rest: seq<Byte>, sub: string, domain: string, dot: bool)
    requires p.Acceptable()
    requires sub != "" && !HasCapital(sub) && '\0' !in sub && '\0' !in domain
    requires Variant(Text(p.address), sub + "." + domain, dot)
    ensures Route(p.Bytes() + rest, domain) == Some(sub) <==> dot || !EndsDotted(domain)
  {
    Handshake.AcceptsPacket(p, rest);
    RouteOfParsed(p.Bytes() + rest, domain, p.address, |p.Bytes()|);
    AdvertisedNameRoutes(Text(p.address), sub, domain, dot);
  }

  /** The same for the handshake as the client encodes it, for any address of at
      most 255 bytes: it is parsed back, extracted and looked up under `sub`. */
  lemma EncodedHandshakeRoutes(version: nat, address: seq<Byte>, port: seq<Byte>, next: nat, rest: seq<Byte>,
                               sub: string, domain: string, dot: bool)
    returns (p: Handshake.Packet)
    requires version < 0x400_0000_0000 && next < 0x400_0000_0000 && |address| <= 255 && |port| == 2
    requires sub != "" && !HasCapital(sub) && '\0' !in sub && '\0' !in domain
    requires Variant(Text(address), sub + "." + domain, dot)
    ensures p == EncodeHandshake(version, address, port, next)
    ensures Route(p.Bytes() + rest, domain) == Some(sub) <==> dot || !EndsDotted(domain)
  {
    p := Encoded(version, address, port, next);
    PacketRoutes(p, address, rest, sub, domain, dot);
  }

  lemma Encoded(version: nat, address: seq<Byte>, port: seq<Byte>, next: nat) returns (p: Handshake.Packet)
    requires version < 0x400_0000_0000 && next < 0x400_0000_0000 && |address| <= 255 && |port| == 2
    ensures p == EncodeHandshake(version, address, port, next) && p.Acceptable() && p.address == address
  {
    EncodedIsAcceptable(version, address, port, next);
    p := EncodeHandshake(version, address, port, next);
  }

  lemma PacketRoutes(p: Handshake.Packet, address: seq<Byte>, rest: seq<Byte>, sub: string, domain: string, dot: bool)
    requires p.Acceptable() && p.address == address
    requires sub != "" && !HasCapital(sub) && '\0' !in sub && '\0' !in domain
    requires Variant(Text(address), sub + "." + domain, dot)
    ensures Route(p.Bytes() + rest, domain) == Some(sub) <==> dot || !EndsDotted(domain)
  {
    HandshakeRoutes(p, rest, sub, domain, dot);
  }

  /** The advertised name itself, exactly as it was told to the mod. */
  lemma AdvertisedNameItselfRoutes(version: nat, address: seq<Byte>, port: seq<Byte>, next: nat, rest: seq<Byte>,
                                   sub: string, domain: string)
    returns (p: Handshake.Packet)
    requires version < 0x400_0000_0000 && next < 0x400_0000_0000 && |address| <= 255 && |port| == 2
    requires sub != "" && !HasCapital(sub) && '\0' !in sub && '\0' !in domain && !EndsDotted(domain)
    requires Text(address) == sub + "." + domain
    ensures p == EncodeHandshake(version, address, port, next)
    ensures Route(p.Bytes() + rest, domain) == Some(sub)
  {
    NameIsVariant(sub + "." + domain);
    p := EncodedHandshakeRoutes(version, address, port, next, rest, sub, domain, false);
  }

  lemma NameIsVariant(host: string)
    ensures Variant(host, host, false)
  {
    assert Written(host, host, false, host, "");
  }
}
