/** parseMinecraftHandshake: the first packet of a player connection. */
module Handshake {
  import opened Wrappers
  import opened Bytes
  import opened Streams
  import VarInt

  // Minecraft Java Edition protocol, Handshake packet:
  // VarInt packet length, VarInt packet id (0), VarInt protocol version,
  // String server address, unsigned short server port, VarInt next state.

  const MAX_PACKET: nat := 1024
  const MAX_STRING: nat := 255

  datatype Field = PacketLength | PacketId | Version | AddressLength | Address | Port | NextState

  datatype Error =
    | EndOfInput(field: Field)
    | VarIntTooLong(field: Field)
    | PacketTooLarge
    | WrongPacketId
    | StringTooLong

  /** The server address (empty unless the address was read), the first error,
      and how many bytes were consumed in either case. */
  datatype Parsed = Parsed(address: seq<Byte>, error: Option<Error>, used: nat)

  function VarIntError(e: VarInt.Error, field: Field): Error {
    match e
    case EndOfInput => EndOfInput(field)
    case TooLong => VarIntTooLong(field)
  }

  /** Exactly `n` bytes, or everything there is. */
  function TakeBytes(s: seq<Byte>, n: nat, field: Field): (r: (Result<seq<Byte>, Error>, nat))
    ensures r.1 <= |s| && r.1 <= n
    ensures r.0.Ok? ==> r.1 == n && r.0.value == s[..n]
  {
    if n <= |s| then (Ok(s[..n]), n) else (Err(EndOfInput(field)), |s|)
  }

  function TakeVarInt(s: seq<Byte>, field: Field): (r: (Result<nat, Error>, nat))
    ensures r.1 <= |s| && r.1 <= VarInt.MAX_BYTES
  {
    var t := VarInt.Take(s);
    match t.result
    case Ok(v) => (Ok(v), t.used)
    case Err(e) => (Err(VarIntError(e, field)), t.used)
  }

  /** readMCString. */
  function TakeString(s: seq<Byte>): (r: (Result<seq<Byte>, Error>, nat))
    ensures r.1 <= |s| && r.1 <= VarInt.MAX_BYTES + MAX_STRING
  {
    var (length, n) := TakeVarInt(s, AddressLength);
    match length
    case Err(e) => (Err(e), n)
    case Ok(v) =>
      if v > MAX_STRING then (Err(StringTooLong), n) else
      var (text, m) := TakeBytes(s[n..], v, Address);
      (text, n + m)
  }

  /** `p` was parsed after `n` bytes had been consumed. */
  function After(n: nat, p: Parsed): Parsed {
    p.(used := n + p.used)
  }

  function ParseNext(s: seq<Byte>, address: seq<Byte>): (p: Parsed)
    ensures p.used <= |s| && p.used <= VarInt.MAX_BYTES
    ensures p.error != Some(PacketTooLarge)
  {
    var (next, n) := TakeVarInt(s, NextState);
    Parsed(address, if next.Err? then Some(next.error) else None, n)
  }

  function ParsePort(s: seq<Byte>, address: seq<Byte>): (p: Parsed)
    ensures p.used <= |s| && p.used <= 2 + VarInt.MAX_BYTES
    ensures p.error != Some(PacketTooLarge)
  {
    var (port, n) := TakeBytes(s, 2, Port);
    if port.Err? then Parsed(address, Some(port.error), n) else After(n, ParseNext(s[n..], address))
  }

  function ParseAddress(s: seq<Byte>): (p: Parsed)
    ensures p.used <= |s| && p.used <= MAX_STRING + 2 + 2 * VarInt.MAX_BYTES
    ensures p.error != Some(PacketTooLarge)
  {
    var (text, n) := TakeString(s);
    if text.Err? then Parsed([], Some(text.error), n) else After(n, ParsePort(s[n..], text.value))
  }

  function ParseVersion(s: seq<Byte>): (p: Parsed)
    ensures p.used <= |s| && p.used <= MAX_STRING + 2 + 3 * VarInt.MAX_BYTES
    ensures p.error != Some(PacketTooLarge)
  {
    var (version, n) := TakeVarInt(s, Version);
    if version.Err? then Parsed([], Some(version.error), n) else After(n, ParseAddress(s[n..]))
  }

  function ParseId(s: seq<Byte>): (p: Parsed)
    ensures p.used <= |s| && p.used <= MAX_STRING + 2 + 4 * VarInt.MAX_BYTES
    ensures p.error != Some(PacketTooLarge)
  {
    var (id, n) := TakeVarInt(s, PacketId);
    if id.Err? then Parsed([], Some(id.error), n)
    else if id.value != 0 then Parsed([], Some(WrongPacketId), n)
    else After(n, ParseVersion(s[n..]))
  }

  /** What parseMinecraftHandshake does to the bytes `s` of a connection. */
  function Parse(s: seq<Byte>): (p: Parsed)
    ensures p.used <= |s| && p.used <= 287
  {
    var (len, n) := TakeVarInt(s, PacketLength);
    if len.Err? then Parsed([], Some(len.error), n)
    else if len.value > MAX_PACKET then Parsed([], Some(PacketTooLarge), n)
    else After(n, ParseId(s[n..]))
  }

  // ---------------------------------------------------------- the readers

  /** Reading from `r` consumed the first `used` bytes of `input` and appended
      them to the recording `before`. */
  ghost predicate Consumed(r: BufferingReader, input: seq<Byte>, before: seq<Byte>, used: nat)
    reads r, r.conn
  {
    used <= |input| && r.conn.pending == input[used..] && r.buf == before + input[..used]
  }

  lemma ConsumedMore(input: seq<Byte>, before: seq<Byte>, n: nat, m: nat)
    requires n <= |input| && m <= |input| - n
    ensures input[n..][m..] == input[n + m..]
    ensures (before + input[..n]) + input[n..][..m] == before + input[..n + m]
  {
  }

  method ReadVarInt(r: BufferingReader, field: Field) returns (v: Result<nat, Error>, ghost used: nat)
    modifies r, r.conn
    ensures (v, used) == TakeVarInt(old(r.conn.pending), field)
    ensures Consumed(r, old(r.conn.pending), old(r.buf), used)
  {
    var t := VarInt.Read(r);
    used := t.used;
    match t.result {
      case Ok(n) => v := Ok(n);
      case Err(e) => v := Err(VarIntError(e, field));
    }
  }

  method ReadBytes(r: BufferingReader, n: nat, field: Field) returns (bytes: Result<seq<Byte>, Error>, ghost used: nat)
    modifies r, r.conn
    ensures (bytes, used) == TakeBytes(old(r.conn.pending), n, field)
    ensures Consumed(r, old(r.conn.pending), old(r.buf), used)
  {
    var data, ok := r.ReadFull(n);
    used := |data|;
    bytes := if ok then Ok(data) else Err(EndOfInput(field));
  }

  /** readMCString. */
  method ReadString(r: BufferingReader) returns (text: Result<seq<Byte>, Error>, ghost used: nat)
    modifies r, r.conn
    ensures (text, used) == TakeString(old(r.conn.pending))
    ensures Consumed(r, old(r.conn.pending), old(r.buf), used)
  {
    ghost var input, before := r.conn.pending, r.buf;
    var length, n := ReadVarInt(r, AddressLength);
    if length.Err? {
      return Err(length.error), n;
    }
    if length.value > MAX_STRING {
      return Err(StringTooLong), n;
    }
    ghost var m;
    text, m := ReadBytes(r, length.value, Address);
    ConsumedMore(input, before, n, m);
    used := n + m;
  }

  /** `address` and `error` are the outcome `p` of parsing `input`, and `r` has
      consumed and recorded exactly the bytes that took. */
  ghost predicate Outcome(r: BufferingReader, input: seq<Byte>, before: seq<Byte>, p: Parsed,
                          address: seq<Byte>, error: Option<Error>)
    reads r, r.conn
  {
    p.address == address && p.error == error && Consumed(r, input, before, p.used)
  }

  lemma OutcomeAfter(r: BufferingReader, input: seq<Byte>, before: seq<Byte>, n: nat, p: Parsed,
                     address: seq<Byte>, error: Option<Error>)
    requires n <= |input| && Outcome(r, input[n..], before + input[..n], p, address, error)
    ensures Outcome(r, input, before, After(n, p), address, error)
  {
    ConsumedMore(input, before, n, p.used);
  }

  /** parseMinecraftHandshake: the address, the error, and the recorded bytes,
      which are exactly the bytes consumed on every path. */
  method ParseMinecraftHandshake(conn: Conn) returns (address: seq<Byte>, raw: seq<Byte>, error: Option<Error>)
    modifies conn
    ensures Parse(old(conn.pending)) == Parsed(address, error, |raw|)
    ensures old(conn.pending) == raw + conn.pending
    ensures |raw| <= 287
  {
    var r := new BufferingReader(conn);
    address, error := ReadFromLength(r);
    raw := r.buf;
  }

  method ReadFromLength(r: BufferingReader) returns (address: seq<Byte>, error: Option<Error>)
    modifies r, r.conn
    ensures Outcome(r, old(r.conn.pending), old(r.buf), Parse(old(r.conn.pending)), address, error)
  {
    ghost var input, before := r.conn.pending, r.buf;
    var len, n := ReadVarInt(r, PacketLength);
    if len.Err? { return [], Some(len.error); }
    if len.value > MAX_PACKET { return [], Some(PacketTooLarge); }
    ghost var rest := r.conn.pending;
    address, error := ReadFromId(r);
    OutcomeAfter(r, input, before, n, ParseId(rest), address, error);
  }

  /** The packet id and what follows it. */
  method ReadFromId(r: BufferingReader) returns (address: seq<Byte>, error: Option<Error>)
    modifies r, r.conn
    ensures Outcome(r, old(r.conn.pending), old(r.buf), ParseId(old(r.conn.pending)), address, error)
  {
    ghost var input, before := r.conn.pending, r.buf;
    var id, n := ReadVarInt(r, PacketId);
    if id.Err? { return [], Some(id.error); }
    if id.value != 0 { return [], Some(WrongPacketId); }
    ghost var rest := r.conn.pending;
    address, error := ReadFromVersion(r);
    OutcomeAfter(r, input, before, n, ParseVersion(rest), address, error);
  }

  method ReadFromVersion(r: BufferingReader) returns (address: seq<Byte>, error: Option<Error>)
    modifies r, r.conn
    ensures Outcome(r, old(r.conn.pending), old(r.buf), ParseVersion(old(r.conn.pending)), address, error)
  {
    ghost var input, before := r.conn.pending, r.buf;
    var version, n := ReadVarInt(r, Version);
    if version.Err? { return [], Some(version.error); }
    ghost var rest := r.conn.pending;
    address, error := ReadFromAddress(r);
    OutcomeAfter(r, input, before, n, ParseAddress(rest), address, error);
  }

  method ReadFromAddress(r: BufferingReader) returns (address: seq<Byte>, error: Option<Error>)
    modifies r, r.conn
    ensures Outcome(r, old(r.conn.pending), old(r.buf), ParseAddress(old(r.conn.pending)), address, error)
  {
    ghost var input, before := r.conn.pending, r.buf;
    var text, n := ReadString(r);
    if text.Err? { return [], Some(text.error); }
    address := text.value;
    ghost var rest := r.conn.pending;
    error := ReadFromPort(r, address);
    OutcomeAfter(r, input, before, n, ParsePort(rest, address), address, error);
  }

  method ReadFromPort(r: BufferingReader, ghost address: seq<Byte>) returns (error: Option<Error>)
    modifies r, r.conn
    ensures Outcome(r, old(r.conn.pending), old(r.buf), ParsePort(old(r.conn.pending), address), address, error)
  {
    ghost var input, before := r.conn.pending, r.buf;
    var port, n := ReadBytes(r, 2, Port);
    if port.Err? { return Some(port.error); }
    ghost var rest := r.conn.pending;
    var next, m := ReadVarInt(r, NextState);
    error := if next.Err? then Some(next.error) else None;
    OutcomeAfter(r, input, before, n, ParseNext(rest, address), address, error);
  }

  // ----------------------------------------------------------- the packets

  /** The bytes of a handshake, field by field. */
  datatype Packet = Packet(length: seq<Byte>, id: seq<Byte>, version: seq<Byte>,
                           addressLength: seq<Byte>, address: seq<Byte>, port: seq<Byte>, next: seq<Byte>)
  {
    function FromAddress(): seq<Byte> {
      addressLength + (address + (port + next))
    }

    function Bytes(): seq<Byte> {
      length + (id + (version + FromAddress()))
    }

    /** The packets the relay accepts. The length field is only bounded: it is
        not compared with the size of the packet. */
    predicate Acceptable() {
      && VarInt.IsVarInt(length) && VarInt.Sum(length) <= MAX_PACKET
      && VarInt.IsVarInt(id) && VarInt.Sum(id) == 0
      && VarInt.IsVarInt(version)
      && VarInt.IsVarInt(addressLength) && VarInt.Sum(addressLength) == |address| <= MAX_STRING
      && |port| == 2
      && VarInt.IsVarInt(next)
    }
  }

  lemma TakeVarIntOf(bs: seq<Byte>, rest: seq<Byte>, field: Field)
    requires VarInt.IsVarInt(bs)
    ensures TakeVarInt(bs + rest, field) == (Ok(VarInt.Sum(bs)), |bs|)
    ensures (bs + rest)[|bs|..] == rest
  {
    assert (bs + rest)[..|bs|] == bs;
    VarInt.TakeIffVarInt(bs + rest, VarInt.Sum(bs), |bs|);
  }

  // One field of an acceptable packet, and then the rest.

  lemma LengthThen(bs: seq<Byte>, rest: seq<Byte>)
    requires VarInt.IsVarInt(bs) && VarInt.Sum(bs) <= MAX_PACKET
    ensures Parse(bs + rest) == After(|bs|, ParseId(rest))
  {
    TakeVarIntOf(bs, rest, PacketLength);
  }

  // The limits, as the code has them.

  /** A packet length is too large from 1025 on. */
  lemma PacketLimit(bs: seq<Byte>, rest: seq<Byte>)
    requires VarInt.IsVarInt(bs)
    ensures Parse(bs + rest).error == Some(PacketTooLarge) <==> VarInt.Sum(bs) > 1024
  {
    TakeVarIntOf(bs, rest, PacketLength);
    TooLargeIff(bs + rest, VarInt.Sum(bs), |bs|);
  }

  lemma TooLargeIff(s: seq<Byte>, v: nat, n: nat)
    requires TakeVarInt(s, PacketLength) == (Ok(v), n)
    ensures Parse(s).error == Some(PacketTooLarge) <==> v > 1024
  {
  }

  /** The address length is too large from 256 on. */
  lemma StringLimit(bs: seq<Byte>, rest: seq<Byte>)
    requires VarInt.IsVarInt(bs)
    ensures TakeString(bs + rest) == (Err(StringTooLong), |bs|) <==> VarInt.Sum(bs) > 255
    ensures TakeString(bs + rest).0.Ok? <==> VarInt.Sum(bs) <= 255 && VarInt.Sum(bs) <= |rest|
  {
    TakeVarIntOf(bs, rest, AddressLength);
  }

  lemma IdThen(bs: seq<Byte>, rest: seq<Byte>)
    requires VarInt.IsVarInt(bs) && VarInt.Sum(bs) == 0
    ensures ParseId(bs + rest) == After(|bs|, ParseVersion(rest))
  {
    TakeVarIntOf(bs, rest, PacketId);
  }

  lemma VersionThen(bs: seq<Byte>, rest: seq<Byte>)
    requires VarInt.IsVarInt(bs)
    ensures ParseVersion(bs + rest) == After(|bs|, ParseAddress(rest))
  {
    TakeVarIntOf(bs, rest, Version);
  }

  lemma AddressThen(s: seq<Byte>, n: nat, text: seq<Byte>, rest: seq<Byte>)
    requires TakeVarInt(s, AddressLength) == (Ok(|text|), n) && |text| <= MAX_STRING
    requires n <= |s| && s[n..] == text + rest
    ensures ParseAddress(s) == After(n + |text|, ParsePort(rest, text))
  {
    TextThen(text, rest);
    BehindBoth(s, n, text, rest);
    StringIs(s, n, text);
    AfterString(s, n + |text|, text, rest);
  }

  lemma StringIs(s: seq<Byte>, n: nat, text: seq<Byte>)
    requires TakeVarInt(s, AddressLength) == (Ok(|text|), n) && |text| <= MAX_STRING && n <= |s|
    requires TakeBytes(s[n..], |text|, Address) == (Ok(text), |text|)
    ensures TakeString(s) == (Ok(text), n + |text|)
  {
  }

  lemma AfterString(s: seq<Byte>, n: nat, text: seq<Byte>, rest: seq<Byte>)
    requires n <= |s| && TakeString(s) == (Ok(text), n) && s[n..] == rest
    ensures ParseAddress(s) == After(n, ParsePort(rest, text))
  {
  }

  lemma TextThen(text: seq<Byte>, rest: seq<Byte>)
    ensures TakeBytes(text + rest, |text|, Address) == (Ok(text), |text|)
  {
    assert (text + rest)[..|text|] == text;
  }

  lemma BehindBoth(s: seq<Byte>, n: nat, a: seq<Byte>, b: seq<Byte>)
    requires n <= |s| && s[n..] == a + b
    ensures n + |a| <= |s| && s[n + |a|..] == b
  {
    assert s[n + |a|..] == s[n..][|a|..];
  }

  lemma PortThen(port: seq<Byte>, rest: seq<Byte>, address: seq<Byte>)
    requires |port| == 2
    ensures ParsePort(port + rest, address) == After(2, ParseNext(rest, address))
  {
    assert (port + rest)[..2] == port && (port + rest)[2..] == rest;
  }

  /** Any acceptable packet is accepted, whatever follows it, and exactly its
      bytes are consumed. */
  lemma AcceptsPacket(p: Packet, rest: seq<Byte>)
    requires p.Acceptable()
    ensures Parse(p.Bytes() + rest) == Parsed(p.address, None, |p.Bytes()|)
  {
    var s6 := p.next + rest;
    var s5 := p.port + s6;
    var s4 := p.addressLength + (p.address + s5);
    var s3 := p.version + s4;
    var s2 := p.id + s3;
    assert p.Bytes() + rest == p.length + s2;
    LengthThen(p.length, s2);
    IdThen(p.id, s3);
    VersionThen(p.version, s4);
    TakeVarIntOf(p.addressLength, p.address + s5, AddressLength);
    AddressThen(s4, |p.addressLength|, p.address, s5);
    PortThen(p.port, s6, p.address);
    TakeVarIntOf(p.next, rest, NextState);
  }

  // The same fields, taken from a stream that is accepted.

  /** The part of `s` a successful TakeVarInt consumed is a VarInt. */
  lemma TakenVarInt(s: seq<Byte>, field: Field) returns (bs: seq<Byte>, rest: seq<Byte>)
    requires TakeVarInt(s, field).0.Ok?
    ensures s == bs + rest && VarInt.IsVarInt(bs) && TakeVarInt(s, field) == (Ok(VarInt.Sum(bs)), |bs|)
    ensures s[|bs|..] == rest
  {
    var (v, n) := TakeVarInt(s, field);
    bs, rest := s[..n], s[n..];
    VarInt.TakeIffVarInt(s, v.value, n);
  }

  lemma TailIsPacket(s: seq<Byte>, address: seq<Byte>) returns (port: seq<Byte>, next: seq<Byte>, rest: seq<Byte>)
    requires ParsePort(s, address).error == None
    ensures |port| == 2 && VarInt.IsVarInt(next) && s == port + (next + rest)
  {
    port := s[..2];
    next, rest := TakenVarInt(s[2..], NextState);
  }

  lemma LengthIsMet(s: seq<Byte>, n: nat)
    requires ParseAddress(s).error == None && TakeVarInt(s, AddressLength).0 == Ok(n)
    ensures n <= MAX_STRING && n <= |s[TakeVarInt(s, AddressLength).1..]|
  {
  }

  lemma AddressIsPacket(s: seq<Byte>) returns (bs: seq<Byte>, text: seq<Byte>, rest: seq<Byte>)
    requires ParseAddress(s).error == None
    ensures VarInt.IsVarInt(bs) && VarInt.Sum(bs) == |text| <= MAX_STRING
    ensures s == bs + (text + rest) && ParsePort(rest, text).error == None
  {
    var s1;
    bs, s1 := TakenVarInt(s, AddressLength);
    var n := VarInt.Sum(bs);
    LengthIsMet(s, n);
    text, rest := SplitAt(s1, n);
    PortIsAccepted(s, bs, text, rest);
  }

  lemma SplitAt(s: seq<Byte>, n: nat) returns (a: seq<Byte>, b: seq<Byte>)
    requires n <= |s|
    ensures s == a + b && |a| == n
  {
    a, b := s[..n], s[n..];
  }

  lemma PortIsAccepted(s: seq<Byte>, bs: seq<Byte>, text: seq<Byte>, rest: seq<Byte>)
    requires VarInt.IsVarInt(bs) && VarInt.Sum(bs) == |text| <= MAX_STRING && s == bs + (text + rest)
    ensures ParsePort(rest, text).error == ParseAddress(s).error
  {
    TakeVarIntOf(bs, text + rest, AddressLength);
    AddressThen(s, |bs|, text, rest);
  }

  /** The fields one after the other, in front of `rest`. */
  function Before(p: Packet, rest: seq<Byte>): seq<Byte> {
    p.length + (p.id + (p.version + (p.addressLength + (p.address + (p.port + (p.next + rest))))))
  }

  lemma BytesBefore(p: Packet, rest: seq<Byte>)
    ensures Before(p, rest) == p.Bytes() + rest
  {
  }

  /** Whatever is accepted starts with an acceptable packet. */
  lemma AcceptedFields(s: seq<Byte>) returns (p: Packet, rest: seq<Byte>)
    requires Parse(s).error == None
    ensures p.Acceptable() && s == Before(p, rest)
  {
    var length, s1 := TakenVarInt(s, PacketLength);
    LengthThen(length, s1);
    var id, s2 := TakenVarInt(s1, PacketId);
    IdThen(id, s2);
    var version, s3 := TakenVarInt(s2, Version);
    VersionThen(version, s3);
    var bs, text, s4 := AddressIsPacket(s3);
    var port, next, s5 := TailIsPacket(s4, text);
    p, rest := Packet(length, id, version, bs, text, port, next), s5;
  }

  lemma AcceptedIsPacket(s: seq<Byte>) returns (p: Packet)
    requires Parse(s).error == None
    ensures p.Acceptable() && p.address == Parse(s).address && p.Bytes() == s[..Parse(s).used]
  {
    var rest;
    p, rest := AcceptedFields(s);
    BytesBefore(p, rest);
    AcceptsPacket(p, rest);
  }

  /** The accepted streams are exactly those that start with an acceptable
      packet, and then the address is that of the packet. */
  lemma AcceptedIffPacket(s: seq<Byte>, address: seq<Byte>, n: nat)
    ensures Parse(s) == Parsed(address, None, n) <==>
            n <= |s| && exists p: Packet :: IsPacketOf(p, address, s[..n])
  {
    if Parse(s) == Parsed(address, None, n) {
      var p := AcceptedIsPacket(s);
      assert IsPacketOf(p, address, s[..n]);
    }
    if n <= |s| && exists p: Packet :: IsPacketOf(p, address, s[..n]) {
      var p: Packet :| IsPacketOf(p, address, s[..n]);
      AcceptsPacket(p, s[n..]);
      Rejoined(s, n);
    }
  }

  lemma Rejoined(s: seq<Byte>, n: nat)
    requires n <= |s|
    ensures s[..n] + s[n..] == s
  {
  }

  /** The bytes behind the packet are not needed. */
  lemma AcceptedPrefix(s: seq<Byte>, k: nat)
    requires Parse(s).error == None && Parse(s).used <= k <= |s|
    ensures Parse(s[..k]) == Parse(s)
  {
    var q := Parse(s);
    AcceptedIffPacket(s, q.address, q.used);
    AcceptedIffPacket(s[..k], q.address, q.used);
    assert s[..k][..q.used] == s[..q.used];
  }

  predicate IsPacketOf(p: Packet, address: seq<Byte>, bytes: seq<Byte>) {
    p.Acceptable() && p.address == address && p.Bytes() == bytes
  }

  // ------------------------------------------------------------- stability

  /** The parser asks for more bytes. */
  predicate Unfinished(p: Parsed) {
    p.error.Some? && p.error.value.EndOfInput?
  }

  lemma TakeVarIntStable(s: seq<Byte>, rest: seq<Byte>, field: Field)
    ensures var (v, n) := TakeVarInt(s, field);
            v != Err(EndOfInput(field)) ==> TakeVarInt(s + rest, field) == (v, n) && (s + rest)[n..] == s[n..] + rest
    ensures var (v, n) := TakeVarInt(s, field);
            v == Err(EndOfInput(field)) ==> n == |s|
  {
    var (v, n) := TakeVarInt(s, field);
    if v != Err(EndOfInput(field)) { VarInt.TakeStable(s, rest); }
  }

  /** `q`, with more bytes behind, is the same outcome as `p`, unless `p` asks
      for more after all `size` bytes it had. */
  predicate Stable(p: Parsed, size: nat, q: Parsed) {
    if Unfinished(p) then p.used == size else q == p
  }

  lemma NextStable(s: seq<Byte>, rest: seq<Byte>, address: seq<Byte>)
    ensures Stable(ParseNext(s, address), |s|, ParseNext(s + rest, address))
  {
    TakeVarIntStable(s, rest, NextState);
  }

  lemma PortStable(s: seq<Byte>, rest: seq<Byte>, address: seq<Byte>)
    ensures Stable(ParsePort(s, address), |s|, ParsePort(s + rest, address))
  {
    if |s| >= 2 {
      assert (s + rest)[..2] == s[..2] && (s + rest)[2..] == s[2..] + rest;
      NextStable(s[2..], rest, address);
    }
  }

  lemma StringStable(s: seq<Byte>, rest: seq<Byte>)
    ensures var (text, n) := TakeString(s);
            if text.Err? && text.error.EndOfInput? then n == |s|
            else TakeString(s + rest) == (text, n) && (s + rest)[n..] == s[n..] + rest
  {
    TakeVarIntStable(s, rest, AddressLength);
    var (length, n) := TakeVarInt(s, AddressLength);
    if length.Ok? && length.value <= MAX_STRING && length.value <= |s[n..]| {
      assert (s[n..] + rest)[..length.value] == s[n..][..length.value];
    }
  }

  lemma AddressStable(s: seq<Byte>, rest: seq<Byte>)
    ensures Stable(ParseAddress(s), |s|, ParseAddress(s + rest))
  {
    StringStable(s, rest);
    var (text, n) := TakeString(s);
    if text.Ok? { PortStable(s[n..], rest, text.value); }
  }

  lemma VersionStable(s: seq<Byte>, rest: seq<Byte>)
    ensures Stable(ParseVersion(s), |s|, ParseVersion(s + rest))
  {
    TakeVarIntStable(s, rest, Version);
    AddressStable(s[TakeVarInt(s, Version).1..], rest);
  }

  lemma IdStable(s: seq<Byte>, rest: seq<Byte>)
    ensures Stable(ParseId(s), |s|, ParseId(s + rest))
  {
    TakeVarIntStable(s, rest, PacketId);
    VersionStable(s[TakeVarInt(s, PacketId).1..], rest);
  }

  /** The outcome depends only on the bytes consumed: once the parser stops, more
      bytes change nothing, and while it asks for more it has used up all it got. */
  lemma ParseStable(s: seq<Byte>, rest: seq<Byte>)
    ensures Stable(Parse(s), |s|, Parse(s + rest))
  {
    TakeVarIntStable(s, rest, PacketLength);
    IdStable(s[TakeVarInt(s, PacketLength).1..], rest);
  }

  /** Cut short, an accepted packet is one the parser still asks more for. */
  lemma CutIsUnfinished(a: seq<Byte>, b: seq<Byte>)
    requires Parse(a + b).error == None && |a| < Parse(a + b).used
    ensures Unfinished(Parse(a))
  {
    ParseStable(a, b);
  }
}
