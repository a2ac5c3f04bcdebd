/** The way of the bytes of one bridged pair, from the player to the LAN server
    and back: the relay parses and replays the handshake, the mod announces
    itself with a CONN_READY frame that the relay strips, and four copy loops
    move everything else. Reads return any number of bytes, writes may fail half
    way, and every loop may stop at any time. */
module BytePath {
  import opened Wrappers
  import opened Bytes
  import Frames
  import Handshake

  // --------------------------------------------------------- one copy loop

  /** A loop that reads a chunk and then writes it. `read` and `written` are all
      the bytes so far; a chunk is in hand while they differ. */
  datatype Copier = Copier(read: seq<Byte>, written: seq<Byte>, live: bool)

  predicate ReadsFrom(c: Copier, c': Copier, source: seq<Byte>) {
    && c.live && c'.live && c.written == c.read && c'.written == c.written
    && |c.read| < |c'.read| <= |source| && c'.read == source[..|c'.read|]
  }

  /** Some more of the chunk goes out. A write that fails is one that stops before
      all of it has. */
  predicate Writes(c: Copier, c': Copier) {
    c.live && c'.live && c'.read == c.read && c.written < c'.written <= c.read
  }

  predicate Stops(c: Copier, c': Copier) {
    c' == c.(live := false)
  }

  predicate CopyStep(c: Copier, c': Copier, source: seq<Byte>) {
    ReadsFrom(c, c', source) || Writes(c, c') || Stops(c, c')
  }

  /** Nothing but what the source sent, in order and from the start. */
  predicate Carries(c: Copier, source: seq<Byte>) {
    c.written <= c.read <= source
  }

  lemma CopyStepCarries(c: Copier, c': Copier, source: seq<Byte>)
    requires Carries(c, source) && CopyStep(c, c', source)
    ensures Carries(c', source) && c.read <= c'.read && c.written <= c'.written
  {
  }

  // ----------------------------------------------------------- the machine

  datatype Stage = Parsing | Parsed | Copying

  datatype Path = Path(
    playerSent: seq<Byte>,
    lanSent: seq<Byte>,
    ready: Frames.Body,         // the CONN_READY body of the mod
    stage: Stage,
    forth: Copier,              // relay, player to data connection
    toLan: Copier,              // mod, data connection to LAN server
    toRelay: Copier,            // mod, LAN server to data connection
    frameSent: seq<Byte>,       // what the mod wrote of the CONN_READY frame
    frameRead: seq<Byte>,       // what ReadMessage of the relay consumed
    back: Copier)               // relay, data connection to player

  /** All the mod wrote to the data connection. */
  function FromMod(x: Path): seq<Byte> {
    x.frameSent + x.toRelay.written
  }

  /** The part of it behind what ReadMessage consumed. */
  function BehindFrame(x: Path): seq<Byte> {
    if |x.frameRead| <= |FromMod(x)| then FromMod(x)[|x.frameRead|..] else []
  }

  predicate GotReady(x: Path) {
    Frames.TakeFrame(x.frameRead).Got?
  }

  const FRESH: Copier := Copier([], [], true)

  predicate Init(x: Path) {
    && |x.ready| <= Frames.MAX_MESSAGE_SIZE
    && x == Path([], [], x.ready, Parsing, FRESH, FRESH, FRESH, [], [], FRESH)
  }

  /** The parser still asks for more one byte before the end of `s`. */
  predicate AskedBefore(s: seq<Byte>)
    requires s != []
  {
    Handshake.Unfinished(Handshake.Parse(s[..|s| - 1]))
  }

  /** The parser reads a chunk: it had asked for more, and would still have asked
      one byte before the end of the chunk. */
  predicate ParseMore(x: Path, y: Path) {
    && x.stage == Parsing && x.forth.live && y == x.(forth := x.forth.(read := y.forth.read))
    && |x.forth.read| < |y.forth.read| <= |x.playerSent| && y.forth.read == x.playerSent[..|y.forth.read|]
    && AskedBefore(y.forth.read)
  }

  predicate ParseDone(x: Path, y: Path) {
    && x.stage == Parsing && x.forth.live && Handshake.Parse(x.forth.read).error == None
    && y == x.(stage := Parsed)
  }

  /** sendConnReady writes some more of the frame. */
  predicate SendReady(x: Path, y: Path)
    requires |x.ready| <= Frames.MAX_MESSAGE_SIZE
  {
    && x.toRelay == FRESH && x.frameSent < y.frameSent <= Frames.Frame(x.ready)
    && y == x.(frameSent := y.frameSent)
  }

  /** ReadMessage of the relay reads a chunk of the frame. */
  predicate ReadReady(x: Path, y: Path) {
    && y == x.(frameRead := y.frameRead)
    && |x.frameRead| < |y.frameRead| <= |FromMod(x)| && y.frameRead == FromMod(x)[..|y.frameRead|]
    && Frames.TakeFrame(y.frameRead[..|y.frameRead| - 1]).Truncated?
  }

  /** Some more of the recorded handshake goes to the data connection; when all of
      it has, the copying starts. */
  predicate Replay(x: Path, y: Path) {
    && x.stage == Parsed && GotReady(x) && Writes(x.forth, y.forth)
    && y == x.(forth := y.forth, stage := if y.forth.written == y.forth.read then Copying else Parsed)
  }

  predicate CopyForth(x: Path, y: Path) {
    x.stage == Copying && CopyStep(x.forth, y.forth, x.playerSent) && y == x.(forth := y.forth)
  }

  predicate CopyToLan(x: Path, y: Path) {
    CopyStep(x.toLan, y.toLan, x.forth.written) && y == x.(toLan := y.toLan)
  }

  predicate CopyToRelay(x: Path, y: Path)
    requires |x.ready| <= Frames.MAX_MESSAGE_SIZE
  {
    && x.frameSent == Frames.Frame(x.ready)
    && CopyStep(x.toRelay, y.toRelay, x.lanSent) && y == x.(toRelay := y.toRelay)
  }

  predicate CopyBack(x: Path, y: Path) {
    x.stage == Copying && CopyStep(x.back, y.back, BehindFrame(x)) && y == x.(back := y.back)
  }

  /** The ends send something, or the relay or the mod stops before it copies. */
  predicate Environment(x: Path, y: Path) {
    || (x.playerSent <= y.playerSent && y == x.(playerSent := y.playerSent))
    || (x.lanSent <= y.lanSent && y == x.(lanSent := y.lanSent))
    || y == x.(forth := x.forth.(live := false))
    || y == x.(back := x.back.(live := false))
    || y == x.(toRelay := x.toRelay.(live := false))
  }

  predicate Next(x: Path, y: Path)
    requires |x.ready| <= Frames.MAX_MESSAGE_SIZE
  {
    || ParseMore(x, y) || ParseDone(x, y) || SendReady(x, y) || ReadReady(x, y) || Replay(x, y)
    || CopyForth(x, y) || CopyToLan(x, y) || CopyToRelay(x, y) || CopyBack(x, y) || Environment(x, y)
  }

  predicate StepAt(run: seq<Path>, i: nat)
    requires 0 < i < |run|
  {
    |run[i - 1].ready| <= Frames.MAX_MESSAGE_SIZE && Next(run[i - 1], run[i])
  }

  predicate IsRun(run: seq<Path>) {
    |run| > 0 && Init(run[0]) && forall i | 0 < i < |run| :: StepAt(run, i)
  }

  // ---------------------------------------------------------- the invariant

  predicate ForthOk(x: Path) {
    && Carries(x.forth, x.playerSent)
    && (x.stage == Parsing && x.forth.read != [] ==> AskedBefore(x.forth.read))
    && (x.stage == Parsing ==> x.forth.written == [])
    && (x.stage != Parsing ==> 0 <= HandshakeOf(x.forth.read) <= |x.forth.read|)
    && (x.stage == Parsed ==> HandshakeOf(x.forth.read) == |x.forth.read|)
    && (x.stage == Copying ==> HandshakeOf(x.forth.read) <= |x.forth.written|)
  }

  /** The length of the handshake the parser accepts at the start of `s`. */
  function HandshakeOf(s: seq<Byte>): int {
    var p := Handshake.Parse(s);
    if p.error == None then p.used else -1
  }

  predicate BackOk(x: Path)
    requires |x.ready| <= Frames.MAX_MESSAGE_SIZE
  {
    var f := Frames.Frame(x.ready);
    && Carries(x.toRelay, x.lanSent)
    && x.frameSent <= f && (x.toRelay != FRESH && x.toRelay.live ==> x.frameSent == f)
    && (x.toRelay.read != [] ==> x.frameSent == f)
    && x.frameRead <= f && |x.frameRead| <= |x.frameSent|
    && (x.stage == Copying ==> x.frameRead == f)
    && Carries(x.back, x.toRelay.written)
    && (x.stage != Copying ==> x.back.read == [])
  }

  predicate Inv(x: Path) {
    |x.ready| <= Frames.MAX_MESSAGE_SIZE && ForthOk(x) && BackOk(x) && Carries(x.toLan, x.forth.written)
  }

  /** A parser that still asked for more one byte earlier has consumed every byte
      when it accepts. */
  lemma AcceptsExactly(s: seq<Byte>)
    requires s != [] && AskedBefore(s) && Handshake.Parse(s).error == None
    ensures Handshake.Parse(s).used == |s|
  {
    if Handshake.Parse(s).used < |s| { Handshake.AcceptedPrefix(s, |s| - 1); }
  }

  lemma HandshakeStable(s: seq<Byte>, t: seq<Byte>)
    requires s <= t && HandshakeOf(s) >= 0
    ensures HandshakeOf(t) == HandshakeOf(s)
  {
    Handshake.ParseStable(s, t[|s|..]);
    assert t == s + t[|s|..];
  }

  lemma ParseMoreKept(x: Path, y: Path)
    requires Inv(x) && ParseMore(x, y)
    ensures Inv(y)
  {
  }

  lemma ParseDoneKept(x: Path, y: Path)
    requires Inv(x) && ParseDone(x, y)
    ensures Inv(y)
  {
    AcceptsExactly(x.forth.read);
  }

  lemma CopyForthKept(x: Path, y: Path)
    requires Inv(x) && CopyForth(x, y)
    ensures Inv(y)
  {
    CopyStepCarries(x.forth, y.forth, x.playerSent);
    HandshakeStable(x.forth.read, y.forth.read);
  }

  /** Reading from bytes that start with a frame, or end inside it. */
  lemma FrameAhead(b: Frames.Body, s: seq<Byte>)
    requires |b| <= Frames.MAX_MESSAGE_SIZE
    ensures Frames.Frame(b) <= s ==> Frames.TakeFrame(s) == Frames.Got(b)
    ensures s < Frames.Frame(b) ==> Frames.TakeFrame(s) == Frames.Truncated
  {
    var f := Frames.Frame(b);
    if f <= s {
      assert s == f + s[|f|..];
      Frames.TakeWritten(b, s[|f|..]);
    } else if s < f {
      assert s == f[..|s|];
      Frames.PartialFrame(b, |s|);
    }
  }

  /** ReadMessage takes exactly the frame of the mod off the data connection. */
  lemma FrameReadExactly(x: Path, y: Path)
    requires |x.ready| <= Frames.MAX_MESSAGE_SIZE && BackOk(x) && ReadReady(x, y)
    ensures y.frameRead <= Frames.Frame(x.ready) && |y.frameRead| <= |x.frameSent|
  {
    ReadsOnlyFrame(x.ready, x.frameSent, x.toRelay.written, y.frameRead);
  }

  /** A reader that was not done one byte earlier has read no more than the frame. */
  lemma ReadsOnlyFrame(b: Frames.Body, sent: seq<Byte>, behind: seq<Byte>, got: seq<Byte>)
    requires |b| <= Frames.MAX_MESSAGE_SIZE && sent <= Frames.Frame(b)
    requires behind == [] || sent == Frames.Frame(b)
    requires got != [] && got <= sent + behind && Frames.TakeFrame(got[..|got| - 1]).Truncated?
    ensures got <= Frames.Frame(b) && |got| <= |sent|
  {
    var f := Frames.Frame(b);
    var shorter := got[..|got| - 1];
    FrameAhead(b, shorter);
    assert |f| <= |shorter| ==> f <= shorter;
    assert |got| <= |sent|;
    assert (sent + behind)[..|got|] == sent[..|got|];
  }

  lemma ReadyIsWhole(x: Path)
    requires Inv(x) && GotReady(x)
    ensures x.frameRead == Frames.Frame(x.ready)
  {
    FrameAhead(x.ready, x.frameRead);
  }

  lemma ReplayKept(x: Path, y: Path)
    requires Inv(x) && Replay(x, y)
    ensures Inv(y)
  {
    ReadyIsWhole(x);
  }

  lemma SendReadyKept(x: Path, y: Path)
    requires Inv(x) && SendReady(x, y)
    ensures Inv(y)
  {
  }

  lemma ReadReadyKept(x: Path, y: Path)
    requires Inv(x) && ReadReady(x, y)
    ensures Inv(y)
  {
    FrameReadExactly(x, y);
  }

  lemma CopyToRelayKept(x: Path, y: Path)
    requires Inv(x) && CopyToRelay(x, y)
    ensures Inv(y)
  {
    CopyStepCarries(x.toRelay, y.toRelay, x.lanSent);
  }

  lemma CopyBackKept(x: Path, y: Path)
    requires Inv(x) && CopyBack(x, y)
    ensures Inv(y)
  {
    assert BehindFrame(x) == x.toRelay.written;
    CopyStepCarries(x.back, y.back, x.toRelay.written);
  }

  lemma EnvironmentKept(x: Path, y: Path)
    requires Inv(x) && Environment(x, y)
    ensures Inv(y)
  {
  }

  lemma CopyToLanKept(x: Path, y: Path)
    requires Inv(x) && CopyToLan(x, y)
    ensures Inv(y)
  {
    CopyStepCarries(x.toLan, y.toLan, x.forth.written);
  }

  lemma StepKeepsInv(x: Path, y: Path)
    requires Inv(x) && Next(x, y)
    ensures Inv(y)
  {
    if ParseMore(x, y) { ParseMoreKept(x, y); }
    else if ParseDone(x, y) { ParseDoneKept(x, y); }
    else if SendReady(x, y) { SendReadyKept(x, y); }
    else if ReadReady(x, y) { ReadReadyKept(x, y); }
    else if Replay(x, y) { ReplayKept(x, y); }
    else if CopyForth(x, y) { CopyForthKept(x, y); }
    else if CopyToLan(x, y) { CopyToLanKept(x, y); }
    else if CopyToRelay(x, y) { CopyToRelayKept(x, y); }
    else if CopyBack(x, y) { CopyBackKept(x, y); }
    else { EnvironmentKept(x, y); }
  }

  lemma InitInv(x: Path)
    requires Init(x)
    ensures Inv(x)
  {
  }

  lemma StepAtKeepsInv(run: seq<Path>, i: nat)
    requires 0 < i < |run| && StepAt(run, i) && Inv(run[i - 1])
    ensures Inv(run[i])
  {
    StepKeepsInv(run[i - 1], run[i]);
  }

  lemma RunStepKeepsInv(run: seq<Path>, i: nat)
    requires IsRun(run) && 0 < i < |run| && Inv(run[i - 1])
    ensures Inv(run[i])
  {
    assert StepAt(run, i);
    StepAtKeepsInv(run, i);
  }

  /** The invariant holds in every state of every run. */
  lemma RunKeepsInv(run: seq<Path>, i: nat)
    requires IsRun(run) && i < |run|
    ensures Inv(run[i])
  {
    InitInv(run[0]);
    for j := 0 to i
      invariant Inv(run[j])
    {
      RunStepKeepsInv(run, j + 1);
    }
  }

  // ------------------------------------------------------------- the results

  /** At every moment of every run, also in the middle of a write, each end has
      received a prefix of what the other end sent: nothing added, left out,
      repeated or reordered. */
  lemma Transparent(run: seq<Path>, i: nat)
    requires IsRun(run) && i < |run|
    ensures run[i].toLan.written <= run[i].playerSent
    ensures run[i].back.written <= run[i].lanSent
  {
    RunKeepsInv(run, i);
  }

  /** Where the bytes are that have not arrived: read but not written by the second
      loop, in the connection between the loops, read but not written by the first
      loop, or not yet read, in this order. */
  lemma MissingBytes(run: seq<Path>, i: nat)
    requires IsRun(run) && i < |run|
    ensures var x := run[i];
            && |x.toLan.written| <= |x.toLan.read| <= |x.forth.written| <= |x.forth.read| <= |x.playerSent|
            && x.playerSent == x.toLan.written + x.toLan.read[|x.toLan.written|..]
                             + x.forth.written[|x.toLan.read|..] + x.forth.read[|x.forth.written|..]
                             + x.playerSent[|x.forth.read|..]
    ensures var x := run[i];
            && |x.back.written| <= |x.back.read| <= |x.toRelay.written| <= |x.toRelay.read| <= |x.lanSent|
            && x.lanSent == x.back.written + x.back.read[|x.back.written|..]
                          + x.toRelay.written[|x.back.read|..] + x.toRelay.read[|x.toRelay.written|..]
                          + x.lanSent[|x.toRelay.read|..]
  {
    RunKeepsInv(run, i);
    var x := run[i];
    Chain(x.toLan.written, x.toLan.read, x.forth.written, x.forth.read, x.playerSent);
    Chain(x.back.written, x.back.read, x.toRelay.written, x.toRelay.read, x.lanSent);
  }

  lemma Chain(a: seq<Byte>, b: seq<Byte>, c: seq<Byte>, d: seq<Byte>, e: seq<Byte>)
    requires a <= b <= c && c <= d && d <= e
    ensures e == a + b[|a|..] + c[|b|..] + d[|c|..] + e[|d|..]
  {
    assert a + b[|a|..] == b;
    assert b + c[|b|..] == c;
    assert c + d[|c|..] == d;
    assert d + e[|d|..] == e;
  }

  /** Once bytes are copied, the relay has taken exactly the CONN_READY frame off
      the data connection, and has sent on the whole handshake, which is what the
      parser consumed of the player's bytes. */
  lemma StrippedAndReplayed(run: seq<Path>, i: nat)
    requires IsRun(run) && i < |run| && run[i].stage == Copying
    ensures |run[i].ready| <= Frames.MAX_MESSAGE_SIZE
    ensures run[i].frameRead == run[i].frameSent == Frames.Frame(run[i].ready)
    ensures var used := HandshakeOf(run[i].playerSent);
            0 <= used <= |run[i].forth.written| && run[i].playerSent[..used] <= run[i].forth.written
  {
    RunKeepsInv(run, i);
    WholeHandshake(run[i]);
  }

  lemma WholeHandshake(x: Path)
    requires Inv(x) && x.stage == Copying
    ensures var used := HandshakeOf(x.playerSent);
            0 <= used <= |x.forth.written| && x.playerSent[..used] <= x.forth.written
  {
    HandshakeStable(x.forth.read, x.playerSent);
  }

  predicate StaysStopped(c: Copier, c': Copier) {
    !c.live ==> c' == c
  }

  predicate AllStayStopped(x: Path, y: Path) {
    && StaysStopped(x.forth, y.forth) && StaysStopped(x.toLan, y.toLan)
    && StaysStopped(x.toRelay, y.toRelay) && StaysStopped(x.back, y.back)
  }

  lemma StepStaysStopped(x: Path, y: Path)
    requires |x.ready| <= Frames.MAX_MESSAGE_SIZE && Next(x, y)
    ensures AllStayStopped(x, y)
  {
  }

  /** A loop that has stopped writes nothing more: the part of its chunk that it
      still held is lost, and so is all that it has not read. */
  lemma StoppedForGood(run: seq<Path>, i: nat, j: nat)
    requires IsRun(run) && i <= j < |run|
    ensures AllStayStopped(run[i], run[j])
  {
    for k := i to j
      invariant AllStayStopped(run[i], run[k])
    {
      assert StepAt(run, k + 1);
      StepStaysStopped(run[k], run[k + 1]);
    }
  }
}
