/** A run of the byte path: the handshake of a player reaches the LAN server. */
module BytePathRuns {
  import opened Wrappers
  import opened Bytes
  import opened BytePath
  import Frames
  import Handshake

  /** A whole handshake: the parser accepts it, and would ask for more without its
      last byte. */
  predicate IsHandshake(s: seq<Byte>) {
    s != [] && AskedBefore(s) && Handshake.Parse(s).error == None
  }

  lemma PacketIsHandshake(p: Handshake.Packet) returns (s: seq<Byte>)
    requires p.Acceptable()
    ensures s == p.Bytes() && IsHandshake(s)
  {
    s := p.Bytes();
    Handshake.AcceptsPacket(p, []);
    assert p.Bytes() + [] == s;
    var a, b := Handshake.SplitAt(s, |s| - 1);
    Handshake.CutIsUnfinished(a, b);
    assert s[..|s| - 1] == a;
  }

  lemma FrameIsRead(b: Frames.Body)
    requires |b| <= Frames.MAX_MESSAGE_SIZE
    ensures Frames.TakeFrame(Frames.Frame(b)) == Frames.Got(b)
    ensures Frames.TakeFrame(Frames.Frame(b)[..|Frames.Frame(b)| - 1]) == Frames.Truncated
  {
    FrameAhead(b, Frames.Frame(b));
    Frames.PartialFrame(b, |Frames.Frame(b)| - 1);
  }

  lemma RunMore(run: seq<Path>, y: Path) returns (more: seq<Path>)
    requires IsRun(run) && |run[|run| - 1].ready| <= Frames.MAX_MESSAGE_SIZE && Next(run[|run| - 1], y)
    ensures IsRun(more) && more == run + [y]
  {
    more := run + [y];
    forall i | 0 < i < |more| ensures StepAt(more, i) {
      if i < |run| { assert StepAt(run, i); }
    }
  }

  /** The state in which the player has sent `s` and nothing else has happened. */
  function Sent(ready: Frames.Body, s: seq<Byte>): Path {
    Path(s, [], ready, Parsing, FRESH, FRESH, FRESH, [], [], FRESH)
  }

  lemma SentRun(s: seq<Byte>, ready: Frames.Body) returns (run: seq<Path>)
    requires |ready| <= Frames.MAX_MESSAGE_SIZE
    ensures IsRun(run) && run[|run| - 1] == Sent(ready, s)
  {
    var x, y := Sent(ready, []), Sent(ready, s);
    run := [x];
    assert Environment(x, y);
    run := RunMore(run, y);
  }

  lemma ReadsAll(s: seq<Byte>, x: Path, y: Path)
    requires s != [] && AskedBefore(s)
    requires x.playerSent == s && x.stage == Parsing && x.forth == FRESH && y == x.(forth := Copier(s, [], true))
    ensures ParseMore(x, y)
  {
    assert s[..|s|] == s;
  }

  /** The player's bytes are read, and parsed. */
  lemma ReadRun(s: seq<Byte>, ready: Frames.Body) returns (run: seq<Path>, x: Path)
    requires IsHandshake(s) && |ready| <= Frames.MAX_MESSAGE_SIZE
    ensures IsRun(run) && run[|run| - 1] == x
    ensures x == Sent(ready, s).(forth := Copier(s, [], true))
  {
    run := SentRun(s, ready);
    x := Sent(ready, s).(forth := Copier(s, [], true));
    ReadsAll(s, Sent(ready, s), x);
    run := RunMore(run, x);
  }

  lemma ParsedRun(s: seq<Byte>, ready: Frames.Body) returns (run: seq<Path>, x: Path)
    requires IsHandshake(s) && |ready| <= Frames.MAX_MESSAGE_SIZE
    ensures IsRun(run) && run[|run| - 1] == x
    ensures x == Sent(ready, s).(stage := Parsed, forth := Copier(s, [], true))
  {
    var y;
    run, y := ReadRun(s, ready);
    x := y.(stage := Parsed);
    assert ParseDone(y, x);
    run := RunMore(run, x);
  }

  /** The mod announces itself ... */
  lemma AnnouncedRun(s: seq<Byte>, ready: Frames.Body) returns (run: seq<Path>, x: Path)
    requires IsHandshake(s) && |ready| <= Frames.MAX_MESSAGE_SIZE
    ensures IsRun(run) && run[|run| - 1] == x
    ensures x == Sent(ready, s).(stage := Parsed, forth := Copier(s, [], true), frameSent := Frames.Frame(ready))
  {
    var y;
    run, y := ParsedRun(s, ready);
    x := y.(frameSent := Frames.Frame(ready));
    assert SendReady(y, x);
    run := RunMore(run, x);
  }

  lemma ReadsFrame(x: Path, y: Path)
    requires |x.ready| <= Frames.MAX_MESSAGE_SIZE && x.frameSent == Frames.Frame(x.ready)
    requires x.toRelay == FRESH && x.frameRead == [] && y == x.(frameRead := x.frameSent)
    ensures ReadReady(x, y)
  {
    FrameIsRead(x.ready);
    assert FromMod(x) == x.frameSent && x.frameSent[..|x.frameSent|] == x.frameSent;
  }

  /** ... and the relay takes the frame. */
  lemma ReadyRun(s: seq<Byte>, ready: Frames.Body) returns (run: seq<Path>, x: Path)
    requires IsHandshake(s) && |ready| <= Frames.MAX_MESSAGE_SIZE
    ensures IsRun(run) && run[|run| - 1] == x
    ensures x == Sent(ready, s).(stage := Parsed, forth := Copier(s, [], true),
                                 frameSent := Frames.Frame(ready), frameRead := Frames.Frame(ready))
  {
    var y;
    run, y := AnnouncedRun(s, ready);
    x := y.(frameRead := y.frameSent);
    ReadsFrame(y, x);
    run := RunMore(run, x);
  }

  /** The relay replays the handshake. */
  lemma ReplayedRun(s: seq<Byte>, ready: Frames.Body) returns (run: seq<Path>, x: Path)
    requires IsHandshake(s) && |ready| <= Frames.MAX_MESSAGE_SIZE
    ensures IsRun(run) && run[|run| - 1] == x && |x.ready| <= Frames.MAX_MESSAGE_SIZE
    ensures x.stage == Copying && x.playerSent == s && x.forth == Copier(s, s, true) && x.toLan == FRESH
    ensures x.lanSent == [] && x.toRelay == FRESH && x.back == FRESH
  {
    FrameIsRead(ready);
    var y;
    run, y := ReadyRun(s, ready);
    x := y.(forth := Copier(s, s, true), stage := Copying);
    assert Replay(y, x);
    run := RunMore(run, x);
  }

  lemma ToLanStep(run: seq<Path>, c: Copier) returns (more: seq<Path>)
    requires IsRun(run) && |run[|run| - 1].ready| <= Frames.MAX_MESSAGE_SIZE
    requires CopyStep(run[|run| - 1].toLan, c, run[|run| - 1].forth.written)
    ensures IsRun(more) && run <= more && more[|more| - 1] == run[|run| - 1].(toLan := c)
  {
    var x := run[|run| - 1];
    assert CopyToLan(x, x.(toLan := c));
    more := RunMore(run, x.(toLan := c));
  }

  lemma CopiesAll(s: seq<Byte>)
    requires s != []
    ensures CopyStep(FRESH, Copier(s, [], true), s)
    ensures CopyStep(Copier(s, [], true), Copier(s, s, true), s)
  {
    assert s[..|s|] == s;
  }

  /** The mod copies it to the LAN server. */
  lemma ArrivedRun(s: seq<Byte>, ready: Frames.Body) returns (run: seq<Path>, x: Path)
    requires IsHandshake(s) && |ready| <= Frames.MAX_MESSAGE_SIZE
    ensures IsRun(run) && run[|run| - 1] == x && x.stage == Copying && AllLive(x)
    ensures x.playerSent == s && x.toLan == Copier(s, s, true) && x.lanSent == []
  {
    run, x := ReplayedRun(s, ready);
    CopiesAll(s);
    run := ToLanStep(run, Copier(s, [], true));
    run := ToLanStep(run, Copier(s, s, true));
    x := run[|run| - 1];
  }

  /** The handshake of any acceptable packet can reach the LAN server, with all
      loops at work. */
  lemma HandshakeCanArrive(p: Handshake.Packet, ready: Frames.Body) returns (run: seq<Path>, x: Path)
    requires p.Acceptable() && |ready| <= Frames.MAX_MESSAGE_SIZE
    ensures IsRun(run) && run[|run| - 1] == x && x.stage == Copying && AllLive(x)
    ensures x.playerSent == p.Bytes() && x.toLan == Copier(p.Bytes(), p.Bytes(), true) && x.lanSent == []
  {
    var s := PacketIsHandshake(p);
    run, x := ArrivedRun(s, ready);
  }

  // -------------------------------------------------- everything gets through

  predicate AllLive(x: Path) {
    x.forth.live && x.toLan.live && x.toRelay.live && x.back.live
  }

  lemma ForthStep(run: seq<Path>, c: Copier) returns (more: seq<Path>)
    requires IsRun(run) && |run[|run| - 1].ready| <= Frames.MAX_MESSAGE_SIZE && run[|run| - 1].stage == Copying
    requires CopyStep(run[|run| - 1].forth, c, run[|run| - 1].playerSent)
    ensures IsRun(more) && run <= more && more[|more| - 1] == run[|run| - 1].(forth := c)
  {
    var x := run[|run| - 1];
    assert CopyForth(x, x.(forth := c));
    more := RunMore(run, x.(forth := c));
  }

  lemma ToRelayStep(run: seq<Path>, c: Copier) returns (more: seq<Path>)
    requires IsRun(run) && |run[|run| - 1].ready| <= Frames.MAX_MESSAGE_SIZE
    requires run[|run| - 1].frameSent == Frames.Frame(run[|run| - 1].ready)
    requires CopyStep(run[|run| - 1].toRelay, c, run[|run| - 1].lanSent)
    ensures IsRun(more) && run <= more && more[|more| - 1] == run[|run| - 1].(toRelay := c)
  {
    var x := run[|run| - 1];
    assert CopyToRelay(x, x.(toRelay := c));
    more := RunMore(run, x.(toRelay := c));
  }

  lemma BackStep(run: seq<Path>, c: Copier) returns (more: seq<Path>)
    requires IsRun(run) && |run[|run| - 1].ready| <= Frames.MAX_MESSAGE_SIZE && run[|run| - 1].stage == Copying
    requires CopyStep(run[|run| - 1].back, c, BehindFrame(run[|run| - 1]))
    ensures IsRun(more) && run <= more && more[|more| - 1] == run[|run| - 1].(back := c)
  {
    var x := run[|run| - 1];
    assert CopyBack(x, x.(back := c));
    more := RunMore(run, x.(back := c));
  }

  /** What a copy loop can do next: write the rest of its chunk, and then read and
      write the rest of its source. */
  lemma CopierMoves(c: Copier, source: seq<Byte>)
    requires Carries(c, source) && c.live
    ensures c.written != c.read ==> CopyStep(c, Copier(c.read, c.read, true), source)
    ensures c.read != source ==> CopyStep(Copier(c.read, c.read, true), Copier(source, c.read, true), source)
    ensures c.read != source ==> CopyStep(Copier(source, c.read, true), Copier(source, source, true), source)
  {
    assert source[..|source|] == source;
  }

  lemma ForthDrains(run: seq<Path>, x: Path) returns (more: seq<Path>)
    requires IsRun(run) && run[|run| - 1] == x && |x.ready| <= Frames.MAX_MESSAGE_SIZE && x.stage == Copying
    requires x.forth.live && Carries(x.forth, x.playerSent)
    ensures IsRun(more) && run <= more
    ensures more[|more| - 1] == x.(forth := Copier(x.playerSent, x.playerSent, true))
  {
    CopierMoves(x.forth, x.playerSent);
    more := run;
    var read := x.forth.read;
    if x.forth.written != read { more := ForthStep(more, Copier(read, read, true)); }
    if read != x.playerSent {
      more := ForthStep(more, Copier(x.playerSent, read, true));
      more := ForthStep(more, Copier(x.playerSent, x.playerSent, true));
    }
  }

  lemma ToLanDrains(run: seq<Path>, x: Path) returns (more: seq<Path>)
    requires IsRun(run) && run[|run| - 1] == x && |x.ready| <= Frames.MAX_MESSAGE_SIZE
    requires x.toLan.live && Carries(x.toLan, x.forth.written)
    ensures IsRun(more) && run <= more
    ensures more[|more| - 1] == x.(toLan := Copier(x.forth.written, x.forth.written, true))
  {
    CopierMoves(x.toLan, x.forth.written);
    more := run;
    var read, source := x.toLan.read, x.forth.written;
    if x.toLan.written != read { more := ToLanStep(more, Copier(read, read, true)); }
    if read != source {
      more := ToLanStep(more, Copier(source, read, true));
      more := ToLanStep(more, Copier(source, source, true));
    }
  }

  lemma ToRelayDrains(run: seq<Path>, x: Path) returns (more: seq<Path>)
    requires IsRun(run) && run[|run| - 1] == x && |x.ready| <= Frames.MAX_MESSAGE_SIZE
    requires x.frameSent == Frames.Frame(x.ready) && x.toRelay.live && Carries(x.toRelay, x.lanSent)
    ensures IsRun(more) && run <= more
    ensures more[|more| - 1] == x.(toRelay := Copier(x.lanSent, x.lanSent, true))
  {
    CopierMoves(x.toRelay, x.lanSent);
    more := run;
    var read := x.toRelay.read;
    if x.toRelay.written != read { more := ToRelayStep(more, Copier(read, read, true)); }
    if read != x.lanSent {
      more := ToRelayStep(more, Copier(x.lanSent, read, true));
      more := ToRelayStep(more, Copier(x.lanSent, x.lanSent, true));
    }
  }

  lemma BackDrains(run: seq<Path>, x: Path, source: seq<Byte>) returns (more: seq<Path>)
    requires IsRun(run) && run[|run| - 1] == x && |x.ready| <= Frames.MAX_MESSAGE_SIZE && x.stage == Copying
    requires x.back.live && source == BehindFrame(x) && Carries(x.back, source)
    ensures IsRun(more) && run <= more
    ensures more[|more| - 1] == x.(back := Copier(source, source, true))
  {
    CopierMoves(x.back, source);
    more := run;
    var read := x.back.read;
    if x.back.written != read { more := BackStep(more, Copier(read, read, true)); }
    if read != source {
      more := BackStep(more, Copier(source, read, true));
      more := BackStep(more, Copier(source, source, true));
    }
  }

  /** The ends send more. */
  lemma BothSend(run: seq<Path>, x: Path, further: seq<Byte>, reply: seq<Byte>) returns (more: seq<Path>)
    requires IsRun(run) && run[|run| - 1] == x && |x.ready| <= Frames.MAX_MESSAGE_SIZE
    ensures IsRun(more) && run <= more
    ensures more[|more| - 1] == x.(playerSent := x.playerSent + further, lanSent := x.lanSent + reply)
  {
    var y := x.(playerSent := x.playerSent + further);
    assert Environment(x, y);
    more := RunMore(run, y);
    var z := y.(lanSent := x.lanSent + reply);
    assert Environment(y, z);
    more := RunMore(more, z);
  }

  /** The invariant, without the handshake. */
  predicate Links(x: Path) {
    |x.ready| <= Frames.MAX_MESSAGE_SIZE && Carries(x.forth, x.playerSent) && Carries(x.toLan, x.forth.written)
    && BackOk(x)
  }

  lemma InvLinks(x: Path)
    requires Inv(x)
    ensures Links(x)
  {
  }

  lemma LinksAt(run: seq<Path>, i: nat)
    requires IsRun(run) && i < |run|
    ensures Links(run[i])
  {
    RunKeepsInv(run, i);
    InvLinks(run[i]);
  }

  lemma LinksOfLast(run: seq<Path>)
    requires IsRun(run)
    ensures Links(run[|run| - 1])
  {
    LinksAt(run, |run| - 1);
  }

  /** The data connection behind the frame that the relay took off. */
  lemma BehindIsWritten(x: Path)
    requires Links(x) && x.stage == Copying
    ensures x.frameSent == Frames.Frame(x.ready) && BehindFrame(x) == x.toRelay.written
  {
  }

  /** All of what the player sends goes to the LAN server. */
  lemma PlayerIsHeard(run: seq<Path>, x: Path) returns (more: seq<Path>, y: Path)
    requires IsRun(run) && run[|run| - 1] == x && x.stage == Copying && AllLive(x)
    ensures IsRun(more) && run <= more && more[|more| - 1] == y && y.stage == Copying && AllLive(y)
    ensures y.playerSent == x.playerSent == y.toLan.written && y.lanSent == x.lanSent
  {
    LinksOfLast(run);
    more := ForthDrains(run, x);
    y := more[|more| - 1];
    LinksOfLast(more);
    more := ToLanDrains(more, y);
    y := more[|more| - 1];
  }

  /** All of what the LAN server sends goes to the player. */
  lemma LanIsHeard(run: seq<Path>, x: Path) returns (more: seq<Path>, y: Path)
    requires IsRun(run) && run[|run| - 1] == x && x.stage == Copying && AllLive(x)
    ensures IsRun(more) && run <= more && more[|more| - 1] == y && y.stage == Copying && AllLive(y)
    ensures y.playerSent == x.playerSent && y.toLan == x.toLan && y.lanSent == x.lanSent == y.back.written
  {
    LinksOfLast(run);
    BehindIsWritten(x);
    more := ToRelayDrains(run, x);
    y := more[|more| - 1];
    LinksOfLast(more);
    BehindIsWritten(y);
    more := BackDrains(more, y, y.toRelay.written);
    y := more[|more| - 1];
  }

  /** `more` goes on from `run`, the player sends `further` and the LAN server
      `reply`, and all that either ever sent has arrived. */
  predicate AllArrived(run: seq<Path>, further: seq<Byte>, reply: seq<Byte>, more: seq<Path>)
    requires run != []
  {
    IsRun(more) && run <= more &&
    var x, y := run[|run| - 1], more[|more| - 1];
    && y.playerSent == x.playerSent + further && y.lanSent == x.lanSent + reply
    && y.toLan.written == y.playerSent && y.back.written == y.lanSent
  }

  /** From every state of every run in which the copying has started and all four
      loops are at work, everything that has been sent and whatever else will be can
      still arrive, in both directions. */
  lemma EverythingCanArrive(run: seq<Path>, further: seq<Byte>, reply: seq<Byte>) returns (more: seq<Path>)
    requires IsRun(run) && run[|run| - 1].stage == Copying && AllLive(run[|run| - 1])
    ensures AllArrived(run, further, reply, more) && more[|more| - 1].stage == Copying
  {
    LinksOfLast(run);
    more := BothSend(run, run[|run| - 1], further, reply);
    var y;
    more, y := PlayerIsHeard(more, more[|more| - 1]);
    more, y := LanIsHeard(more, y);
  }

  /** A loop that has stopped keeps bytes sent later from arriving. */
  lemma StoppedLoopBlocks(more: seq<Path>, i: nat, x: Path, y: Path)
    requires IsRun(more) && i < |more| && more[i] == x && more[|more| - 1] == y
    requires |y.toLan.written| == |y.playerSent| > |x.playerSent|
    requires |y.back.written| == |y.lanSent| > |x.lanSent|
    ensures AllLive(x)
  {
    LinksAt(more, i);
    LinksOfLast(more);
    StoppedForGood(more, i, |more| - 1);
    SilentLoop(x, y);
  }

  lemma SilentLoop(x: Path, y: Path)
    requires Links(x) && Links(y) && AllStayStopped(x, y)
    requires |y.toLan.written| == |y.playerSent| > |x.playerSent|
    requires |y.back.written| == |y.lanSent| > |x.lanSent|
    ensures AllLive(x)
  {
  }

  /** Once the copying has started, what both ends send from then on can arrive if
      and only if none of the four loops has stopped. */
  lemma AllArrivesIff(run: seq<Path>, further: seq<Byte>, reply: seq<Byte>)
    requires IsRun(run) && run[|run| - 1].stage == Copying && further != [] && reply != []
    ensures (exists more :: AllArrived(run, further, reply, more)) <==> AllLive(run[|run| - 1])
  {
    if AllLive(run[|run| - 1]) {
      var more := EverythingCanArrive(run, further, reply);
    }
    if more :| AllArrived(run, further, reply, more) {
      StoppedLoopBlocks(more, |run| - 1, run[|run| - 1], more[|more| - 1]);
    }
  }

  /** From the first byte on: a handshake, whatever the player sends after it, and
      whatever the LAN server answers can get through. */
  lemma BothDirectionsWork(p: Handshake.Packet, ready: Frames.Body, further: seq<Byte>, reply: seq<Byte>)
    returns (run: seq<Path>, x: Path)
    requires p.Acceptable() && |ready| <= Frames.MAX_MESSAGE_SIZE
    ensures IsRun(run) && run[|run| - 1] == x && x.stage == Copying
    ensures x.toLan.written == x.playerSent == p.Bytes() + further && x.back.written == x.lanSent == reply
  {
    run, x := HandshakeCanArrive(p, ready);
    run := EverythingCanArrive(run, further, reply);
    x := run[|run| - 1];
  }

  // ------------------------------------------------------- and what may not

  /** Every loop may stop at any time. */
  lemma AnyLoopCanStop(x: Path)
    requires |x.ready| <= Frames.MAX_MESSAGE_SIZE
    ensures Next(x, x.(forth := x.forth.(live := false))) && Next(x, x.(toLan := x.toLan.(live := false)))
    ensures Next(x, x.(toRelay := x.toRelay.(live := false))) && Next(x, x.(back := x.back.(live := false)))
  {
    assert Stops(x.toLan, x.toLan.(live := false));
    assert CopyToLan(x, x.(toLan := x.toLan.(live := false)));
  }

  /** Some of the chunk, and then the end. */
  lemma PartCopied(source: seq<Byte>, n: nat)
    requires 0 < n <= |source|
    ensures CopyStep(Copier([], [], true), Copier(source, [], true), source)
    ensures CopyStep(Copier(source, [], true), Copier(source, source[..n], true), source)
    ensures CopyStep(Copier(source, source[..n], true), Copier(source, source[..n], false), source)
  {
    assert source[..|source|] == source;
  }

  /** A prefix may be all that ever arrives, and it may be any: for every number of
      bytes above zero in either direction some run ends with exactly that many
      delivered, and both last loops stopped. */
  lemma AnyPrefixMayBeAll(p: Handshake.Packet, ready: Frames.Body, reply: seq<Byte>, n: nat, m: nat)
    returns (run: seq<Path>, x: Path)
    requires p.Acceptable() && |ready| <= Frames.MAX_MESSAGE_SIZE && 0 < n <= |p.Bytes()| && 0 < m <= |reply|
    ensures IsRun(run) && run[|run| - 1] == x && x.playerSent == p.Bytes() && x.lanSent == reply
    ensures x.toLan.written == p.Bytes()[..n] && !x.toLan.live
    ensures x.back.written == reply[..m] && !x.back.live
  {
    var s := PacketIsHandshake(p);
    run, x := CutForth(s, ready, n);
    run, x := CutBack(run, x, reply, m);
  }

  lemma CutForth(s: seq<Byte>, ready: Frames.Body, n: nat) returns (run: seq<Path>, x: Path)
    requires IsHandshake(s) && |ready| <= Frames.MAX_MESSAGE_SIZE && 0 < n <= |s|
    ensures IsRun(run) && run[|run| - 1] == x && x.stage == Copying && x.playerSent == s
    ensures x.toLan == Copier(s, s[..n], false) && x.lanSent == [] && x.toRelay == FRESH && x.back == FRESH
  {
    run, x := ReplayedRun(s, ready);
    PartCopied(s, n);
    run := ToLanStep(run, Copier(s, [], true));
    run := ToLanStep(run, Copier(s, s[..n], true));
    run := ToLanStep(run, Copier(s, s[..n], false));
    x := run[|run| - 1];
  }

  lemma CutBack(run: seq<Path>, x: Path, reply: seq<Byte>, m: nat) returns (more: seq<Path>, y: Path)
    requires IsRun(run) && run[|run| - 1] == x && x.stage == Copying && 0 < m <= |reply|
    requires x.lanSent == [] && x.toRelay == FRESH && x.back == FRESH
    ensures IsRun(more) && more[|more| - 1] == y && y.playerSent == x.playerSent && y.lanSent == reply
    ensures y.toLan == x.toLan && y.back == Copier(reply, reply[..m], false)
  {
    more, y := ReplyIsBehind(run, x, reply);
    PartCopied(reply, m);
    more := BackStep(more, Copier(reply, [], true));
    more := BackStep(more, Copier(reply, reply[..m], true));
    more := BackStep(more, Copier(reply, reply[..m], false));
    y := more[|more| - 1];
  }

  /** The reply lies in the data connection. */
  lemma ReplyIsBehind(run: seq<Path>, x: Path, reply: seq<Byte>) returns (more: seq<Path>, y: Path)
    requires IsRun(run) && run[|run| - 1] == x && x.stage == Copying
    requires x.lanSent == [] && x.toRelay == FRESH && x.back == FRESH
    ensures IsRun(more) && more[|more| - 1] == y && |y.ready| <= Frames.MAX_MESSAGE_SIZE && y.stage == Copying
    ensures y.playerSent == x.playerSent && y.lanSent == reply && BehindFrame(y) == reply
    ensures y.toLan == x.toLan && y.back == FRESH
  {
    LinksOfLast(run);
    BehindIsWritten(x);
    more := BothSend(run, x, [], reply);
    more := ToRelayDrains(more, more[|more| - 1]);
    y := more[|more| - 1];
    LinksOfLast(more);
    BehindIsWritten(y);
  }
}
