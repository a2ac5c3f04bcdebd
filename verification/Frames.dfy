/** The length-prefixed frames of the control protocol: the Go relay and the Java
    mod, each as writer and as reader. A frame body stands for one JSON envelope. */
module Frames {
  import opened Wrappers
  import opened Bytes
  import opened Streams

  const MAX_MESSAGE_SIZE: nat := 65536

  type Body = seq<Byte>

  // ----------------------------------------------------------- the prefix

  /** PutUint32 and ByteBuffer.putInt. */
  function BigEndian(n: nat): (h: seq<Byte>)
    requires n < 0x1_0000_0000
    ensures |h| == 4
  {
    [(n / 256 / 256 / 256) as Byte, (n / 256 / 256 % 256) as Byte, (n / 256 % 256) as Byte, (n % 256) as Byte]
  }

  /** binary.BigEndian.Uint32. */
  function Unsigned(h: seq<Byte>): (n: nat)
    requires |h| == 4
    ensures n < 0x1_0000_0000
  {
    ((h[0] as int * 256 + h[1] as int) * 256 + h[2] as int) * 256 + h[3] as int
  }

  /** ByteBuffer.getInt: the same bits in two's complement. */
  function Signed(h: seq<Byte>): int
    requires |h| == 4
  {
    var n := Unsigned(h);
    if n < 0x8000_0000 then n else n - 0x1_0000_0000
  }

  predicate GoRejects(h: seq<Byte>)
    requires |h| == 4
  {
    Unsigned(h) > MAX_MESSAGE_SIZE
  }

  predicate JavaRejects(h: seq<Byte>)
    requires |h| == 4
  {
    Signed(h) < 0 || Signed(h) > MAX_MESSAGE_SIZE
  }

  lemma PrefixRoundTrip(n: nat)
    requires n < 0x1_0000_0000
    ensures Unsigned(BigEndian(n)) == n
  {
  }

  /** The highest byte comes first. */
  lemma HighByteFirst(h: seq<Byte>)
    requires |h| == 4
    ensures Unsigned(h) == 0x100_0000 * h[0] as int + 0x1_0000 * h[1] as int + 0x100 * h[2] as int + h[3] as int
  {
  }

  /** The prefixes of bodies that are too large. */
  lemma LengthLimit(n: nat, rest: seq<Byte>)
    requires n < 0x1_0000_0000
    ensures TakeFrame(BigEndian(n) + rest) == Oversize <==> n > 65536
    ensures TakeFrame(BigEndian(n) + rest).Got? <==> n <= 65536 && n <= |rest|
  {
    PrefixRoundTrip(n);
    assert (BigEndian(n) + rest)[..4] == BigEndian(n);
  }

  /** Both ends accept the same prefixes and read the same length from them. */
  lemma SameLengths(h: seq<Byte>)
    requires |h| == 4
    ensures GoRejects(h) <==> JavaRejects(h)
    ensures !GoRejects(h) ==> Signed(h) == Unsigned(h)
  {
  }

  function Frame(b: Body): seq<Byte>
    requires |b| <= MAX_MESSAGE_SIZE
  {
    BigEndian(|b|) + b
  }

  // ------------------------------------------------------------ the writers

  datatype WriteResult = Written | TooLarge | Broken

  /** `sent` grew by the whole frame, by nothing because the body is too large,
      or by a part of the frame. */
  ghost predicate Wrote(before: seq<Byte>, after: seq<Byte>, b: Body, r: WriteResult) {
    match r
    case Written => |b| <= MAX_MESSAGE_SIZE && after == before + Frame(b)
    case TooLarge => |b| > MAX_MESSAGE_SIZE && after == before
    case Broken => |b| <= MAX_MESSAGE_SIZE && exists k: nat | k <= |Frame(b)| :: after == before + Frame(b)[..k]
  }

  /** WriteMessage of the relay: two writes, with nothing to keep other writers
      out in between. */
  method GoWriteMessage(conn: OutConn, data: Body) returns (r: WriteResult)
    modifies conn
    ensures Wrote(old(conn.sent), conn.sent, data, r)
  {
    ghost var before := conn.sent;
    if |data| > MAX_MESSAGE_SIZE {
      return TooLarge;
    }
    var lenBuf := BigEndian(|data|);
    var ok := conn.Write(lenBuf);
    if !ok {
      ghost var k: nat :| k <= |lenBuf| && conn.sent == before + lenBuf[..k];
      assert lenBuf[..k] == Frame(data)[..k];
      return Broken;
    }
    ok := conn.Write(data);
    if !ok {
      ghost var k: nat :| k <= |data| && conn.sent == before + lenBuf + data[..k];
      assert lenBuf + data[..k] == Frame(data)[..4 + k];
      Assoc(before, lenBuf, data[..k]);
      return Broken;
    }
    Assoc(before, lenBuf, data);
    return Written;
  }

  // ------------------------------------------------------------ the readers

  /** What reading one message from a stream yields. */
  datatype ReadResult = Got(body: Body) | Oversize | Truncated

  function TakeFrame(s: seq<Byte>): (r: ReadResult)
    ensures r.Got? ==> |r.body| <= MAX_MESSAGE_SIZE && Frame(r.body) <= s
  {
    if |s| < 4 then Truncated
    else if GoRejects(s[..4]) then Oversize
    else
      var n := Unsigned(s[..4]);
      if |s| < 4 + n then Truncated
      else
        PrefixOfLength(s[..4]);
        assert s[..4] + s[4..4 + n] == s[..4 + n];
        Got(s[4..4 + n])
  }

  /** How many bytes that consumes. */
  function Consumed(s: seq<Byte>): (n: nat)
    ensures n <= |s|
  {
    match TakeFrame(s)
    case Got(body) => 4 + |body|
    case Oversize => 4
    case Truncated => |s|
  }

  lemma PrefixOfLength(h: seq<Byte>)
    requires |h| == 4
    ensures BigEndian(Unsigned(h)) == h
  {
    var a, b, c, d := h[0] as int, h[1] as int, h[2] as int, h[3] as int;
    LastDigit(a, b);
    LastDigit(a * 256 + b, c);
    LastDigit((a * 256 + b) * 256 + c, d);
  }

  lemma LastDigit(q: nat, r: nat)
    requires r < 256
    ensures (q * 256 + r) / 256 == q && (q * 256 + r) % 256 == r
  {
  }

  /** ReadMessage of the relay. */
  method GoReadMessage(conn: Conn) returns (r: ReadResult)
    modifies conn
    ensures r == TakeFrame(old(conn.pending))
    ensures conn.pending == old(conn.pending)[Consumed(old(conn.pending))..]
  {
    ghost var input := conn.pending;
    var lenBuf, ok := conn.ReadFull(4);
    if !ok {
      return Truncated;
    }
    assert lenBuf == input[..4];
    var msgLen := Unsigned(lenBuf);
    if msgLen > MAX_MESSAGE_SIZE {
      return Oversize;
    }
    ghost var rest := conn.pending;
    var data;
    data, ok := conn.ReadFull(msgLen);
    if !ok {
      return Truncated;
    }
    assert data == rest[..msgLen] == input[4..4 + msgLen];
    assert conn.pending == rest[msgLen..];
    return Got(data);
  }

  /** readFully of the mod: fills the array in place, or fails at the end of the
      stream with all of it consumed. */
  method JavaReadFully(conn: Conn, buf: array<Byte>) returns (ok: bool)
    modifies conn, buf
    ensures ok <==> buf.Length <= |old(conn.pending)|
    ensures ok ==> old(conn.pending) == buf[..] + conn.pending
    ensures !ok ==> conn.pending == []
  {
    var offset := 0;
    while offset < buf.Length
      invariant 0 <= offset <= buf.Length
      invariant old(conn.pending) == buf[..offset] + conn.pending
    {
      ghost var done := buf[..offset];
      var read := conn.ReadInto(buf, offset, buf.Length - offset);
      if read < 0 {
        return false;
      }
      assert buf[..offset + read] == done + buf[offset..offset + read];
      offset := offset + read;
    }
    assert buf[..offset] == buf[..];
    return true;
  }

  /** readMessage of the mod does what the relay does. */
  method JavaReadMessage(conn: Conn) returns (r: ReadResult)
    modifies conn
    ensures r == TakeFrame(old(conn.pending))
    ensures conn.pending == old(conn.pending)[Consumed(old(conn.pending))..]
  {
    ghost var input := conn.pending;
    var lenBuf := new Byte[4];
    var ok := JavaReadFully(conn, lenBuf);
    if !ok {
      return Truncated;
    }
    assert lenBuf[..] == input[..4];
    var msgLen := Signed(lenBuf[..]);
    SameLengths(lenBuf[..]);
    if msgLen < 0 || msgLen > MAX_MESSAGE_SIZE {
      return Oversize;
    }
    ghost var rest := conn.pending;
    var data := new Byte[msgLen];
    ok := JavaReadFully(conn, data);
    if !ok {
      return Truncated;
    }
    assert data[..] == rest[..msgLen] == input[4..4 + msgLen];
    return Got(data[..]);
  }

  // -------------------------------------------------------- whole streams

  predicate Writable(bs: seq<Body>) {
    forall i | 0 <= i < |bs| :: |bs[i]| <= MAX_MESSAGE_SIZE
  }

  /** The frames one after the other. */
  function Stream(bs: seq<Body>): seq<Byte>
    requires Writable(bs)
  {
    if bs == [] then [] else Frame(bs[0]) + Stream(bs[1..])
  }

  lemma {:induction false} StreamConcat(a: seq<Body>, b: seq<Body>)
    requires Writable(a) && Writable(b)
    ensures Writable(a + b) && Stream(a + b) == Stream(a) + Stream(b)
  {
    if a == [] {
      assert a + b == b;
    } else {
      assert (a + b)[1..] == a[1..] + b;
      StreamConcat(a[1..], b);
      Assoc(Frame(a[0]), Stream(a[1..]), Stream(b));
    }
  }

  lemma TakeWritten(b: Body, rest: seq<Byte>)
    requires |b| <= MAX_MESSAGE_SIZE
    ensures TakeFrame(Frame(b) + rest) == Got(b)
    ensures (Frame(b) + rest)[4 + |b|..] == rest && (Frame(b) + rest)[Consumed(Frame(b) + rest)..] == rest
  {
    var s := Frame(b) + rest;
    PrefixRoundTrip(|b|);
    assert s[..4] == BigEndian(|b|);
    assert s[4..4 + |b|] == b;
  }

  /** Reading messages until one cannot be read: the bodies, why it stopped, and
      the bytes not consumed. */
  datatype Decoded = Decoded(bodies: seq<Body>, last: ReadResult, rest: seq<Byte>)

  function Decode(s: seq<Byte>): (d: Decoded)
    ensures !d.last.Got? && Writable(d.bodies)
    decreases |s|
  {
    var r := TakeFrame(s);
    if !r.Got? then Decoded([], r, s[Consumed(s)..])
    else
      var d := Decode(s[Consumed(s)..]);
      Decoded([r.body] + d.bodies, d.last, d.rest)
  }

  lemma DecodeFrame(b: Body, tail: seq<Byte>)
    requires |b| <= MAX_MESSAGE_SIZE
    ensures var d := Decode(tail); Decode(Frame(b) + tail) == Decoded([b] + d.bodies, d.last, d.rest)
  {
    TakeWritten(b, tail);
  }

  /** Reading what was written yields the bodies, and then whatever the bytes
      behind them hold. */
  lemma {:induction false} DecodeStream(bs: seq<Body>, rest: seq<Byte>)
    requires Writable(bs)
    ensures var d := Decode(rest); Decode(Stream(bs) + rest) == Decoded(bs + d.bodies, d.last, d.rest)
  {
    var d := Decode(rest);
    if bs == [] {
      assert Stream(bs) + rest == rest && bs + d.bodies == d.bodies;
    } else {
      Assoc(Frame(bs[0]), Stream(bs[1..]), rest);
      DecodeStream(bs[1..], rest);
      DecodeFrame(bs[0], Stream(bs[1..]) + rest);
      Assoc([bs[0]], bs[1..], d.bodies);
      assert [bs[0]] + bs[1..] == bs;
    }
  }

  /** Reading exactly as many messages as were written consumes exactly their
      bytes. */
  function ReadN(s: seq<Byte>, n: nat): Option<(seq<Body>, seq<Byte>)> {
    if n == 0 then Some(([], s)) else
    match TakeFrame(s)
    case Got(b) =>
      (match ReadN(s[4 + |b|..], n - 1)
       case Some((bs, rest)) => Some(([b] + bs, rest))
       case None => None)
    case _ => None
  }

  lemma {:induction false} ReadNStream(bs: seq<Body>, rest: seq<Byte>)
    requires Writable(bs)
    ensures ReadN(Stream(bs) + rest, |bs|) == Some((bs, rest))
  {
    if bs == [] {
      assert Stream(bs) + rest == rest;
    } else {
      var tail := Stream(bs[1..]) + rest;
      Assoc(Frame(bs[0]), Stream(bs[1..]), rest);
      TakeWritten(bs[0], tail);
      ReadNStream(bs[1..], rest);
      assert [bs[0]] + bs[1..] == bs;
    }
  }

  /** A part of a frame is not a message. */
  lemma PartialFrame(b: Body, k: nat)
    requires |b| <= MAX_MESSAGE_SIZE && k < |Frame(b)|
    ensures TakeFrame(Frame(b)[..k]) == Truncated
  {
    PrefixRoundTrip(|b|);
    if k >= 4 { assert Frame(b)[..k][..4] == BigEndian(|b|); }
  }

  lemma StreamOfOne(b: Body)
    requires |b| <= MAX_MESSAGE_SIZE
    ensures Stream([b]) == Frame(b)
  {
    assert [b][1..] == [];
  }

  /** The cut falls into frame `m`. */
  lemma {:induction false} FrameAt(bs: seq<Body>, k: nat) returns (m: nat)
    requires Writable(bs) && k < |Stream(bs)|
    ensures m < |bs| && |Stream(bs[..m])| <= k < |Stream(bs[..m])| + |Frame(bs[m])|
    ensures Stream(bs)[..k] == Stream(bs[..m]) + Frame(bs[m])[..k - |Stream(bs[..m])|]
    decreases |bs|
  {
    var n := |bs| - 1;
    var first, last := bs[..n], bs[n];
    assert bs == first + [last];
    StreamConcat(first, [last]);
    StreamOfOne(last);
    if k < |Stream(first)| {
      m := FrameAt(first, k);
      assert first[..m] == bs[..m];
    } else {
      m := n;
    }
    CutOfTwo(Stream(first), Frame(last), k);
  }

  lemma CutOfTwo(a: seq<Byte>, b: seq<Byte>, k: nat)
    requires k <= |a| + |b|
    ensures (a + b)[..k] == if k < |a| then a[..k] else a + b[..k - |a|]
  {
  }

  /** A stream cut anywhere yields exactly the frames that are complete, and then
      an error. */
  lemma TruncatedStream(bs: seq<Body>, k: nat) returns (m: nat)
    requires Writable(bs) && k < |Stream(bs)|
    ensures m < |bs| && |Stream(bs[..m])| <= k < |Stream(bs[..m])| + |Frame(bs[m])|
    ensures Decode(Stream(bs)[..k]) == Decoded(bs[..m], Truncated, [])
  {
    m := FrameAt(bs, k);
    var part := Frame(bs[m])[..k - |Stream(bs[..m])|];
    PartialFrame(bs[m], |part|);
    DecodeStream(bs[..m], part);
    assert Decode(part) == Decoded([], Truncated, []);
    assert bs[..m] + [] == bs[..m];
  }

  /** More bytes behind do not change a result the reader already has. */
  lemma TakeFrameStable(s: seq<Byte>, rest: seq<Byte>)
    requires !TakeFrame(s).Truncated?
    ensures TakeFrame(s + rest) == TakeFrame(s) && Consumed(s + rest) == Consumed(s)
  {
    assert (s + rest)[..4] == s[..4];
    if TakeFrame(s).Got? {
      var n := Unsigned(s[..4]);
      assert (s + rest)[4..4 + n] == s[4..4 + n];
    }
  }

  // ------------------------------------------------------ several writers

  /** Writers share a connection. Each whole frame goes out at once, as under the
      synchronized block of the mod; `queues` are what each still has to write,
      `log` what went out so far and by whom. */
  datatype Shared = Shared(queues: map<int, seq<Body>>, sent: seq<Byte>, log: seq<(int, Body)>)

  predicate CanWrite(x: Shared, w: int) {
    w in x.queues && x.queues[w] != [] && Writable(x.queues[w])
  }

  function WriteNext(x: Shared, w: int): Shared
    requires CanWrite(x, w)
  {
    var b := x.queues[w][0];
    Shared(x.queues[w := x.queues[w][1..]], x.sent + Frame(b), x.log + [(w, b)])
  }

  /** The schedule names whose turn it is, again and again. */
  predicate CanRun(x: Shared, schedule: seq<int>)
    decreases |schedule|
  {
    schedule == [] || (CanWrite(x, schedule[0]) && CanRun(WriteNext(x, schedule[0]), schedule[1..]))
  }

  function Run(x: Shared, schedule: seq<int>): Shared
    requires CanRun(x, schedule)
    decreases |schedule|
  {
    if schedule == [] then x else Run(WriteNext(x, schedule[0]), schedule[1..])
  }

  function Bodies(log: seq<(int, Body)>): (bs: seq<Body>)
    ensures |bs| == |log|
    ensures forall i | 0 <= i < |log| :: bs[i] == log[i].1
  {
    if log == [] then [] else [log[0].1] + Bodies(log[1..])
  }

  /** The messages of writer `w`, in the order they went out. */
  function By(log: seq<(int, Body)>, w: int): seq<Body> {
    if log == [] then []
    else By(log[..|log| - 1], w) + (if log[|log| - 1].0 == w then [log[|log| - 1].1] else [])
  }

  ghost predicate Merged(x: Shared, start: map<int, seq<Body>>) {
    && x.queues.Keys == start.Keys
    && Writable(Bodies(x.log)) && x.sent == Stream(Bodies(x.log))
    && forall w | w in start :: By(x.log, w) + x.queues[w] == start[w]
  }

  lemma {:induction false} BodiesConcat(a: seq<(int, Body)>, b: seq<(int, Body)>)
    ensures Bodies(a + b) == Bodies(a) + Bodies(b)
  {
    if a == [] {
      assert a + b == b;
    } else {
      assert (a + b)[1..] == a[1..] + b;
      BodiesConcat(a[1..], b);
    }
  }

  /** One more message in the log. */
  lemma BodiesMore(log: seq<(int, Body)>, w: int, b: Body)
    requires Writable(Bodies(log)) && |b| <= MAX_MESSAGE_SIZE
    ensures Writable(Bodies(log + [(w, b)])) && Stream(Bodies(log + [(w, b)])) == Stream(Bodies(log)) + Frame(b)
  {
    BodiesConcat(log, [(w, b)]);
    assert Bodies([(w, b)]) == [b];
    StreamConcat(Bodies(log), [b]);
    StreamOfOne(b);
  }

  lemma ByMore(log: seq<(int, Body)>, w: int, b: Body, v: int)
    ensures By(log + [(w, b)], v) == By(log, v) + (if v == w then [b] else [])
  {
    assert (log + [(w, b)])[..|log|] == log;
  }

  lemma WriteKeepsMerged(x: Shared, start: map<int, seq<Body>>, w: int)
    requires Merged(x, start) && CanWrite(x, w)
    ensures Merged(WriteNext(x, w), start)
  {
    var y := WriteNext(x, w);
    var b := x.queues[w][0];
    BodiesMore(x.log, w, b);
    forall v | v in start ensures By(y.log, v) + y.queues[v] == start[v] {
      ByMore(x.log, w, b, v);
      if v == w {
        Assoc(By(x.log, w), [b], x.queues[w][1..]);
        assert [b] + x.queues[w][1..] == x.queues[w];
      } else {
        assert By(x.log, v) + [] == By(x.log, v);
      }
    }
  }

  lemma {:induction false} RunKeepsMerged(x: Shared, start: map<int, seq<Body>>, schedule: seq<int>)
    requires Merged(x, start) && CanRun(x, schedule)
    ensures Merged(Run(x, schedule), start)
    decreases |schedule|
  {
    if schedule != [] {
      WriteKeepsMerged(x, start, schedule[0]);
      RunKeepsMerged(WriteNext(x, schedule[0]), start, schedule[1..]);
    }
  }

  /** In any interleaving of any number of writers the reader gets a merge of
      their messages: each writer's messages in its own order, and nothing else. */
  lemma InterleavingDecodes(start: map<int, seq<Body>>, schedule: seq<int>)
    requires CanRun(Shared(start, [], []), schedule)
    ensures var end := Run(Shared(start, [], []), schedule);
            && Decode(end.sent) == Decoded(Bodies(end.log), Truncated, [])
            && end.queues.Keys == start.Keys
            && forall w | w in start :: By(end.log, w) + end.queues[w] == start[w]
  {
    RunKeepsMerged(Shared(start, [], []), start, schedule);
    var end := Run(Shared(start, [], []), schedule);
    DecodeStream(Bodies(end.log), []);
    assert end.sent + [] == end.sent && Bodies(end.log) + [] == Bodies(end.log);
  }

  /** Two writes with nothing to keep others out in between, as in WriteMessage
      of the relay, can tear frames: the reader then takes the second length
      prefix for the start of the first body. */
  lemma TornFrames(a: Body, b: Body)
    requires 4 <= |a| <= MAX_MESSAGE_SIZE && |b| <= MAX_MESSAGE_SIZE && a[..4] != BigEndian(|b|)
    ensures TakeFrame(BigEndian(|a|) + BigEndian(|b|) + b + a).Got?
    ensures TakeFrame(BigEndian(|a|) + BigEndian(|b|) + b + a) != Got(a)
  {
    var s := BigEndian(|a|) + BigEndian(|b|) + b + a;
    PrefixRoundTrip(|a|);
    assert s[..4] == BigEndian(|a|);
    assert s[4..] == BigEndian(|b|) + (b + a);
    assert s[4..4 + |a|] == s[4..][..|a|];
    assert s[4..4 + |a|][..4] == BigEndian(|b|);
  }
}
