/** WriteMessage of the relay as it is: the length prefix and the body go out in
    two writes, and other writers may come in between. */
module HalfWrites {
  import opened Bytes
  import opened Frames
  import opened Wrappers

  // ---------------------------------------------------------------- machine

  /** What each writer still has to send, and who has sent the prefix of its next
      message but not the body. */
  datatype Writers = Writers(queues: map<int, seq<Body>>, halfway: set<int>)

  /** One write to the connection. */
  datatype Piece = Prefix(w: int, body: Body) | Rest(w: int, body: Body)

  predicate Sendable(b: Body) {
    0 < |b| <= MAX_MESSAGE_SIZE && b[0] != 0
  }

  /** Every message is small enough and starts with a byte other than zero, as the
      text of a JSON object does. */
  predicate AllSendable(queues: map<int, seq<Body>>) {
    forall w, i | w in queues && 0 <= i < |queues[w]| :: Sendable(queues[w][i])
  }

  predicate CanStep(x: Writers, w: int) {
    w in x.queues && x.queues[w] != []
  }

  /** The next write of `w`. */
  function Next(x: Writers, w: int): Piece
    requires CanStep(x, w)
  {
    if w in x.halfway then Rest(w, x.queues[w][0]) else Prefix(w, x.queues[w][0])
  }

  function Step(x: Writers, w: int): Writers
    requires CanStep(x, w)
  {
    if w in x.halfway then Writers(x.queues[w := x.queues[w][1..]], x.halfway - {w})
    else x.(halfway := x.halfway + {w})
  }

  /** The schedule says whose turn it is, again and again. */
  predicate CanRun(x: Writers, schedule: seq<int>)
    decreases |schedule|
  {
    schedule == [] || (CanStep(x, schedule[0]) && CanRun(Step(x, schedule[0]), schedule[1..]))
  }

  function End(x: Writers, schedule: seq<int>): Writers
    requires CanRun(x, schedule)
    decreases |schedule|
  {
    if schedule == [] then x else End(Step(x, schedule[0]), schedule[1..])
  }

  /** A complete schedule leaves nothing to send. */
  predicate Complete(x: Writers, schedule: seq<int>) {
    CanRun(x, schedule) && Drained(End(x, schedule))
  }

  predicate Drained(x: Writers) {
    x.halfway == {} && forall w | w in x.queues :: x.queues[w] == []
  }

  lemma StepSendable(x: Writers, w: int)
    requires AllSendable(x.queues) && CanStep(x, w)
    ensures AllSendable(Step(x, w).queues) && Sendable(x.queues[w][0])
  {
  }

  /** All writes in their order. */
  function Pieces(x: Writers, schedule: seq<int>): (ps: seq<Piece>)
    requires CanRun(x, schedule) && AllSendable(x.queues)
    ensures |ps| == |schedule| && Small(ps)
    decreases |schedule|
  {
    if schedule == [] then [] else
    StepSendable(x, schedule[0]);
    [Next(x, schedule[0])] + Pieces(Step(x, schedule[0]), schedule[1..])
  }

  function Raw(p: Piece): seq<Byte>
    requires |p.body| <= MAX_MESSAGE_SIZE
  {
    if p.Prefix? then BigEndian(|p.body|) else p.body
  }

  predicate Small(ps: seq<Piece>) {
    forall i | 0 <= i < |ps| :: |ps[i].body| <= MAX_MESSAGE_SIZE
  }

  /** What the reader gets. */
  function Wire(ps: seq<Piece>): seq<Byte>
    requires Small(ps)
  {
    if ps == [] then [] else Raw(ps[0]) + Wire(ps[1..])
  }

  // -------------------------------------------------------------- the claims

  /** No other write falls between the prefix and the body of a frame. */
  predicate Unbroken(ps: seq<Piece>) {
    forall i | 0 <= i < |ps| - 1 && ps[i].Prefix? :: ps[i + 1].w == ps[i].w
  }

  /** `log` has the messages of each writer in their order, and no others. */
  ghost predicate IsMerge(log: seq<(int, Body)>, queues: map<int, seq<Body>>) {
    && (forall i | 0 <= i < |log| :: log[i].0 in queues)
    && (forall w | w in queues :: By(log, w) == queues[w])
  }

  /** The reader gets all messages, those of each writer in their order, and
      nothing else. */
  ghost predicate DecodesToMerge(s: seq<Byte>, queues: map<int, seq<Body>>) {
    exists log :: IsMerge(log, queues) && Decode(s) == Decoded(Bodies(log), Truncated, [])
  }

  /** `log` has the messages of each writer in their order up to what is `left`. */
  ghost predicate IsPart(log: seq<(int, Body)>, queues: map<int, seq<Body>>, left: map<int, seq<Body>>) {
    && left.Keys == queues.Keys
    && (forall i | 0 <= i < |log| :: log[i].0 in queues)
    && (forall w | w in queues :: By(log, w) + left[w] == queues[w])
  }

  // ------------------------------------------------------------- two writes

  /** The first write when nobody is halfway. */
  lemma FirstIsPrefix(x: Writers, schedule: seq<int>)
    requires x.halfway == {} && AllSendable(x.queues) && CanRun(x, schedule) && schedule != []
    ensures CanStep(x, schedule[0]) && Sendable(x.queues[schedule[0]][0])
    ensures Pieces(x, schedule)[0] == Prefix(schedule[0], x.queues[schedule[0]][0])
    ensures |schedule| == 1 ==> End(x, schedule) == Writers(x.queues, {schedule[0]})
  {
    StepSendable(x, schedule[0]);
    assert Step(x, schedule[0]).halfway == {schedule[0]};
  }

  /** ... and the second is either the body, or the prefix of another writer. */
  lemma FirstTwo(x: Writers, schedule: seq<int>)
    requires x.halfway == {} && AllSendable(x.queues) && CanRun(x, schedule) && |schedule| >= 2
    ensures CanStep(x, schedule[0]) && Sendable(x.queues[schedule[0]][0])
    ensures var ps := Pieces(x, schedule);
            && ps[0] == Prefix(schedule[0], x.queues[schedule[0]][0])
            && ps[1].w == schedule[1] && (schedule[1] != schedule[0] ==> ps[1].Prefix?)
  {
    FirstIsPrefix(x, schedule);
    var y := Step(x, schedule[0]);
    StepSendable(x, schedule[0]);
    assert y.halfway == {schedule[0]};
    assert Pieces(x, schedule)[1] == Pieces(y, schedule[1..])[0];
  }

  /** What is left when the first frame went out whole. */
  function Onward(x: Writers, w: int): Writers
    requires CanStep(x, w)
  {
    Writers(x.queues[w := x.queues[w][1..]], {})
  }

  lemma WholeFrameFirst(x: Writers, schedule: seq<int>)
    requires x.halfway == {} && AllSendable(x.queues) && CanRun(x, schedule)
    requires |schedule| >= 2 && schedule[0] == schedule[1]
    ensures CanStep(x, schedule[0])
    ensures var y := Onward(x, schedule[0]);
            && AllSendable(y.queues) && CanRun(y, schedule[2..]) && End(y, schedule[2..]) == End(x, schedule)
            && Pieces(x, schedule) == [Prefix(schedule[0], x.queues[schedule[0]][0]),
                                       Rest(schedule[0], x.queues[schedule[0]][0])] + Pieces(y, schedule[2..])
  {
    var w := schedule[0];
    var x1 := Step(x, w);
    StepSendable(x, w);
    StepSendable(x1, w);
    assert x1.halfway - {w} == {} && Step(x1, w) == Onward(x, w);
    assert schedule[1..][1..] == schedule[2..];
  }

  lemma WireOfTwo(p: Piece, q: Piece, ps: seq<Piece>)
    requires Small([p, q] + ps)
    ensures Small(ps) && |p.body| <= MAX_MESSAGE_SIZE && |q.body| <= MAX_MESSAGE_SIZE
    ensures Wire([p, q] + ps) == Raw(p) + Raw(q) + Wire(ps)
  {
    var all := [p, q] + ps;
    assert all[0] == p && all[1..][0] == all[1] == q && all[1..][1..] == ps;
    assert forall i | 0 <= i < |ps| :: ps[i] == all[i + 2];
    assert Wire(all[1..]) == Raw(q) + Wire(ps);
  }

  lemma UnbrokenAfterTwo(p: Piece, q: Piece, ps: seq<Piece>)
    requires p.Prefix? && q.Rest? && p.w == q.w
    ensures Unbroken([p, q] + ps) <==> Unbroken(ps)
  {
    var all := [p, q] + ps;
    assert forall i | 0 <= i < |ps| :: ps[i] == all[i + 2];
    if Unbroken(all) {
      forall i | 0 <= i < |ps| - 1 && ps[i].Prefix? ensures ps[i + 1].w == ps[i].w {
        assert all[i + 2].Prefix? && all[i + 3] == ps[i + 1];
      }
    }
  }

  /** A whole frame, and then what the others of the schedule send. */
  lemma FrameFirst(x: Writers, schedule: seq<int>) returns (w: int, b: Body, y: Writers, later: seq<int>)
    requires x.halfway == {} && AllSendable(x.queues) && CanRun(x, schedule)
    requires |schedule| >= 2 && schedule[0] == schedule[1]
    ensures CanStep(x, w) && b == x.queues[w][0] && Sendable(b)
    ensures y == Onward(x, w) && AllSendable(y.queues)
    ensures w == schedule[0] && later == schedule[2..] && CanRun(y, later) && End(y, later) == End(x, schedule)
    ensures Unbroken(Pieces(x, schedule)) <==> Unbroken(Pieces(y, later))
    ensures Wire(Pieces(x, schedule)) == Frame(b) + Wire(Pieces(y, later))
  {
    FirstTwo(x, schedule);
    WholeFrameFirst(x, schedule);
    w, later := schedule[0], schedule[2..];
    b, y := x.queues[w][0], Onward(x, w);
    UnbrokenAfterTwo(Prefix(w, b), Rest(w, b), Pieces(y, later));
    WireOfTwo(Prefix(w, b), Rest(w, b), Pieces(y, later));
  }

  // ------------------------------------------------------------ whole frames

  lemma ByFirst(log: seq<(int, Body)>, v: int, b: Body, w: int)
    ensures By([(v, b)] + log, w) == (if v == w then [b] else []) + By(log, w)
  {
    var more := [(v, b)] + log;
    if log == [] {
      assert more[..|more| - 1] == [];
    } else {
      assert more[..|more| - 1] == [(v, b)] + log[..|log| - 1];
      ByFirst(log[..|log| - 1], v, b, w);
    }
  }

  lemma FirstOfPart(log: seq<(int, Body)>, queues: map<int, seq<Body>>, left: map<int, seq<Body>>, w: int)
    requires w in queues && queues[w] != [] && IsPart(log, queues[w := queues[w][1..]], left)
    ensures IsPart([(w, queues[w][0])] + log, queues, left)
  {
    var b := queues[w][0];
    forall v | v in queues ensures By([(w, b)] + log, v) + left[v] == queues[v] {
      ByFirst(log, w, b, v);
      if v == w { Assoc([b], By(log, v), left[v]); }
    }
  }

  lemma FirstOfStream(log: seq<(int, Body)>, w: int, b: Body)
    requires Writable(Bodies(log)) && |b| <= MAX_MESSAGE_SIZE
    ensures Writable(Bodies([(w, b)] + log)) && Stream(Bodies([(w, b)] + log)) == Frame(b) + Stream(Bodies(log))
  {
    BodiesConcat([(w, b)], log);
    assert Bodies([(w, b)]) == [b];
    StreamConcat([b], Bodies(log));
    StreamOfOne(b);
  }

  /** Nothing, or the prefix of a message. */
  ghost predicate IsHead(head: seq<Byte>) {
    head == [] || exists b: Body :: Sendable(b) && head == BigEndian(|b|)
  }

  /** Without an interruption the reader gets whole frames, and behind them at most
      a prefix. */
  lemma {:induction false} UnbrokenCarries(x: Writers, schedule: seq<int>)
    returns (log: seq<(int, Body)>, head: seq<Byte>)
    requires x.halfway == {} && AllSendable(x.queues) && CanRun(x, schedule) && Unbroken(Pieces(x, schedule))
    ensures IsPart(log, x.queues, End(x, schedule).queues) && Writable(Bodies(log))
    ensures Wire(Pieces(x, schedule)) == Stream(Bodies(log)) + head && IsHead(head)
    ensures End(x, schedule).halfway == {} ==> head == []
    decreases |schedule|
  {
    log, head := [], [];
    if |schedule| == 1 {
      FirstIsPrefix(x, schedule);
      head := BigEndian(|x.queues[schedule[0]][0]|);
      assert Pieces(x, schedule)[1..] == [];
      assert Wire(Pieces(x, schedule)) == head + [];
    } else if |schedule| >= 2 {
      FirstTwo(x, schedule);
      var w, b, y, later := FrameFirst(x, schedule);
      var tail;
      tail, head := UnbrokenCarries(y, later);
      log := [(w, b)] + tail;
      FirstOfPart(tail, x.queues, End(x, schedule).queues, w);
      FirstOfStream(tail, w, b);
      Assoc(Frame(b), Stream(Bodies(tail)), head);
    }
  }

  lemma HeadDecodes(head: seq<Byte>, k: nat)
    requires IsHead(head) && k <= |head|
    ensures Decode(head[..k]) == Decoded([], Truncated, [])
  {
    if head != [] {
      var b: Body :| Sendable(b) && head == BigEndian(|b|);
      PrefixRoundTrip(|b|);
      assert k == 4 ==> head[..k][..4] == head;
    }
  }

  lemma StreamThenPart(bs: seq<Body>, part: seq<Byte>)
    requires Writable(bs) && Decode(part) == Decoded([], Truncated, [])
    ensures Decode(Stream(bs) + part) == Decoded(bs, Truncated, [])
  {
    DecodeStream(bs, part);
    assert bs + [] == bs;
  }

  lemma HeadCutDecodes(bs: seq<Body>, head: seq<Byte>, j: nat)
    requires Writable(bs) && IsHead(head) && j <= |head|
    ensures Decode(Stream(bs) + head[..j]) == Decoded(bs, Truncated, [])
  {
    HeadDecodes(head, j);
    StreamThenPart(bs, head[..j]);
  }

  /** Whole frames `s` and a head, cut anywhere. */
  lemma CutDecodes(bs: seq<Body>, s: seq<Byte>, head: seq<Byte>, k: nat) returns (m: nat, cut: seq<Byte>)
    requires Writable(bs) && s == Stream(bs) && IsHead(head) && k <= |s| + |head|
    ensures cut == (s + head)[..k] && m <= |bs| && Decode(cut) == Decoded(bs[..m], Truncated, [])
    ensures k == |s| + |head| ==> m == |bs|
  {
    CutOfTwo(s, head, k);
    if k < |s| {
      cut := s[..k];
      m := CutStreamDecodes(bs, k);
    } else {
      cut := s + head[..k - |s|];
      m := |bs|;
      HeadCutDecodes(bs, head, k - |s|);
      assert bs[..m] == bs;
    }
  }

  lemma CutStreamDecodes(bs: seq<Body>, k: nat) returns (m: nat)
    requires Writable(bs) && k < |Stream(bs)|
    ensures m <= |bs| && Decode(Stream(bs)[..k]) == Decoded(bs[..m], Truncated, [])
  {
    m := TruncatedStream(bs, k);
  }

  lemma PartIsMerge(log: seq<(int, Body)>, queues: map<int, seq<Body>>, left: map<int, seq<Body>>)
    requires IsPart(log, queues, left) && forall w | w in left :: left[w] == []
    ensures IsMerge(log, queues)
  {
    forall w | w in queues ensures By(log, w) == queues[w] { assert By(log, w) + [] == By(log, w); }
  }

  lemma UnbrokenDecodes(x: Writers, schedule: seq<int>)
    requires x.halfway == {} && AllSendable(x.queues) && Complete(x, schedule) && Unbroken(Pieces(x, schedule))
    ensures DecodesToMerge(Wire(Pieces(x, schedule)), x.queues)
  {
    var log, head := UnbrokenCarries(x, schedule);
    var s := Wire(Pieces(x, schedule));
    var m, cut := CutDecodes(Bodies(log), Stream(Bodies(log)), head, |s|);
    assert cut == s && Bodies(log)[..m] == Bodies(log);
    PartIsMerge(log, x.queues, End(x, schedule).queues);
  }

  // ------------------------------------------------------------- torn frames

  /** A message that no writer sends, or fewer than `n` messages. */
  ghost predicate Spoilt(bodies: seq<Body>, n: int) {
    |bodies| < n || exists i :: 0 <= i < |bodies| && !Sendable(bodies[i])
  }

  ghost predicate Garbled(s: seq<Byte>, n: int) {
    Spoilt(Decode(s).bodies, n)
  }

  /** The reader takes the prefix of the second message for the start of the first
      body, and that prefix starts with a zero. */
  lemma TornIsGarbled(a: Body, b: Body, rest: seq<Byte>, n: int)
    requires Sendable(a) && Sendable(b) && n > 0
    ensures Garbled(BigEndian(|a|) + BigEndian(|b|) + rest, n)
  {
    var s := BigEndian(|a|) + BigEndian(|b|) + rest;
    PrefixRoundTrip(|a|);
    assert s[..4] == BigEndian(|a|);
    assert s[4] == BigEndian(|b|)[0] == 0;
    if TakeFrame(s).Got? {
      assert TakeFrame(s).body[0] == s[4];
      assert Decode(s).bodies[0] == TakeFrame(s).body;
    }
  }

  lemma SpoiltWithOneMore(b: Body, bodies: seq<Body>, n: int)
    requires Spoilt(bodies, n)
    ensures Spoilt([b] + bodies, n + 1)
  {
    if i :| 0 <= i < |bodies| && !Sendable(bodies[i]) {
      assert ([b] + bodies)[i + 1] == bodies[i];
    }
  }

  lemma FrameThenGarbled(b: Body, s: seq<Byte>, n: int)
    requires |b| <= MAX_MESSAGE_SIZE && Garbled(s, n)
    ensures Garbled(Frame(b) + s, n + 1)
  {
    DecodeFrame(b, s);
    SpoiltWithOneMore(b, Decode(s).bodies, n);
  }

  /** Another writer comes in right after the first prefix. */
  lemma TornFirst(x: Writers, schedule: seq<int>, n: int)
    requires x.halfway == {} && AllSendable(x.queues) && CanRun(x, schedule)
    requires |schedule| >= 2 && schedule[0] != schedule[1] && n > 0
    ensures Garbled(Wire(Pieces(x, schedule)), n)
  {
    FirstTwo(x, schedule);
    SecondIsSendable(x, schedule);
    var ps := Pieces(x, schedule);
    assert ps == [ps[0], ps[1]] + ps[2..];
    WireOfTwo(ps[0], ps[1], ps[2..]);
    TornIsGarbled(ps[0].body, ps[1].body, Wire(ps[2..]), n);
  }

  lemma BrokenHasTwo(ps: seq<Piece>)
    requires !Unbroken(ps)
    ensures |ps| >= 2
  {
  }

  lemma GarbledBehind(b: Body, s: seq<Byte>, whole: seq<Byte>, n: int)
    requires |b| <= MAX_MESSAGE_SIZE && Garbled(s, n) && whole == Frame(b) + s
    ensures Garbled(whole, n + 1)
  {
    FrameThenGarbled(b, s, n);
  }

  lemma {:induction false} BrokenIsGarbled(x: Writers, schedule: seq<int>)
    requires x.halfway == {} && AllSendable(x.queues) && CanRun(x, schedule) && !Unbroken(Pieces(x, schedule))
    ensures Garbled(Wire(Pieces(x, schedule)), |schedule| / 2)
    decreases |schedule|
  {
    BrokenHasTwo(Pieces(x, schedule));
    if schedule[0] == schedule[1] {
      var w, b, y, later := FrameFirst(x, schedule);
      BrokenIsGarbled(y, later);
      GarbledBehind(b, Wire(Pieces(y, later)), Wire(Pieces(x, schedule)), |later| / 2);
    } else {
      TornFirst(x, schedule, |schedule| / 2);
    }
  }

  lemma SecondIsSendable(x: Writers, schedule: seq<int>)
    requires AllSendable(x.queues) && CanRun(x, schedule) && |schedule| >= 2
    ensures Sendable(Pieces(x, schedule)[1].body)
  {
    StepSendable(x, schedule[0]);
    StepSendable(Step(x, schedule[0]), schedule[1]);
    assert Pieces(x, schedule)[1] == Pieces(Step(x, schedule[0]), schedule[1..])[0];
  }

  // --------------------------------------------------------------- counting

  lemma ByHolds(log: seq<(int, Body)>, i: nat)
    requires i < |log|
    ensures log[i].1 in By(log, log[i].0)
    decreases |log|
  {
    if i < |log| - 1 {
      ByHolds(log[..|log| - 1], i);
    }
  }

  lemma AllHeld(log: seq<(int, Body)>)
    ensures forall i | 0 <= i < |log| :: log[i].1 in By(log, log[i].0)
  {
    forall i | 0 <= i < |log| ensures log[i].1 in By(log, log[i].0) { ByHolds(log, i); }
  }

  lemma {:induction false} WithoutFirst(log: seq<(int, Body)>, w: int) returns (less: seq<(int, Body)>)
    requires By(log, w) != []
    ensures |less| == |log| - 1 && (forall i | 0 <= i < |less| :: less[i] in log)
    ensures By(less, w) == By(log, w)[1..] && forall v | v != w :: By(less, v) == By(log, v)
    decreases |log|
  {
    var n := |log| - 1;
    var before := log[..n];
    if By(before, w) == [] {
      less := before;
    } else {
      var shorter := WithoutFirst(before, w);
      less := shorter + [log[n]];
      assert less[..|less| - 1] == shorter;
      assert forall i | 0 <= i < |shorter| :: shorter[i] in before;
      assert forall e | e in before :: e in log;
    }
  }

  /** A merge has as many messages as a complete schedule sends. */
  lemma {:induction false} MergeLength(x: Writers, schedule: seq<int>, log: seq<(int, Body)>)
    requires Complete(x, schedule) && IsMerge(log, x.queues)
    requires forall w | w in x.halfway :: CanStep(x, w)
    ensures |schedule| + |x.halfway| == 2 * |log|
    decreases |schedule|
  {
    if schedule == [] {
      AllHeld(log);
    } else {
      var w := schedule[0];
      var y := Step(x, w);
      if w in x.halfway {
        var less := WithoutFirst(log, w);
        assert |y.halfway| == |x.halfway| - 1;
        forall v | v in y.halfway ensures CanStep(y, v) { assert v in x.halfway && v != w; }
        MergeLength(y, schedule[1..], less);
      } else {
        MergeLength(y, schedule[1..], log);
      }
    }
  }

  lemma GarbledIsNoMerge(s: seq<Byte>, queues: map<int, seq<Body>>, schedule: seq<int>)
    requires AllSendable(queues) && Complete(Writers(queues, {}), schedule) && Garbled(s, |schedule| / 2)
    ensures !DecodesToMerge(s, queues)
  {
    if DecodesToMerge(s, queues) {
      var log: seq<(int, Body)> :| IsMerge(log, queues) && Decode(s) == Decoded(Bodies(log), Truncated, []);
      MergeLength(Writers(queues, {}), schedule, log);
      forall i | 0 <= i < |log| ensures Sendable(Bodies(log)[i]) {
        ByHolds(log, i);
        var own := queues[log[i].0];
        assert log[i].1 in own;
      }
    }
  }

  // ---------------------------------------------------------------- results

  /** When the unprotected writes of the relay are safe: whatever each writer has
      to send, a complete schedule reaches the reader as a merge that keeps every
      writer's order if and only if no other write falls between the prefix and
      the body of a frame. */
  lemma MergeIffUnbroken(queues: map<int, seq<Body>>, schedule: seq<int>)
    requires AllSendable(queues) && Complete(Writers(queues, {}), schedule)
    ensures var ps := Pieces(Writers(queues, {}), schedule);
            DecodesToMerge(Wire(ps), queues) <==> Unbroken(ps)
  {
    var x := Writers(queues, {});
    if Unbroken(Pieces(x, schedule)) {
      UnbrokenDecodes(x, schedule);
    } else {
      BrokenIsGarbled(x, schedule);
      GarbledIsNoMerge(Wire(Pieces(x, schedule)), queues, schedule);
    }
  }

  /** A schedule that stops anywhere, the last write perhaps after a part of its
      bytes: without an interruption so far the reader gets messages in the order
      of each writer, all of those written whole if no write was cut. */
  lemma UnbrokenReadsSoFar(queues: map<int, seq<Body>>, schedule: seq<int>, k: nat)
    returns (log: seq<(int, Body)>, m: nat)
    requires AllSendable(queues) && CanRun(Writers(queues, {}), schedule)
    requires var ps := Pieces(Writers(queues, {}), schedule); Unbroken(ps) && k <= |Wire(ps)|
    ensures var x := Writers(queues, {});
            && IsPart(log, queues, End(x, schedule).queues) && m <= |log|
            && Decode(Wire(Pieces(x, schedule))[..k]) == Decoded(Bodies(log)[..m], Truncated, [])
            && (k == |Wire(Pieces(x, schedule))| ==> m == |log|)
  {
    var head, cut;
    log, head := UnbrokenCarries(Writers(queues, {}), schedule);
    m, cut := CutDecodes(Bodies(log), Stream(Bodies(log)), head, k);
  }

  // ----------------------------------------------- schedules that go on

  lemma RunOn(x: Writers, s: seq<int>, t: seq<int>)
    requires AllSendable(x.queues) && CanRun(x, s + t)
    ensures CanRun(x, s) && CanRun(End(x, s), t) && End(x, s + t) == End(End(x, s), t)
    ensures Pieces(x, s) == Pieces(x, s + t)[..|s|]
    decreases |s|
  {
    if s == [] {
      assert s + t == t;
    } else {
      assert (s + t)[1..] == s[1..] + t;
      StepSendable(x, s[0]);
      RunOn(Step(x, s[0]), s[1..], t);
    }
  }

  lemma WholeThen(x: Writers, w: int, rest: seq<int>)
    requires x.halfway == {} && AllSendable(x.queues) && CanStep(x, w) && CanRun(Onward(x, w), rest)
    ensures CanRun(x, [w, w] + rest) && End(x, [w, w] + rest) == End(Onward(x, w), rest)
  {
    var schedule := [w, w] + rest;
    var x1 := Step(x, w);
    assert x1.halfway - {w} == {} && Step(x1, w) == Onward(x, w);
    assert schedule[1..][1..] == rest && schedule[1..][0] == w;
  }

  lemma OnwardSendable(x: Writers, w: int)
    requires AllSendable(x.queues) && CanStep(x, w)
    ensures AllSendable(Onward(x, w).queues)
  {
  }

  /** A frame of `w` in front of an unbroken rest. */
  lemma WholeStaysUnbroken(x: Writers, w: int, rest: seq<int>)
    requires x.halfway == {} && AllSendable(x.queues) && CanStep(x, w) && AllSendable(Onward(x, w).queues)
    requires Complete(Onward(x, w), rest) && Unbroken(Pieces(Onward(x, w), rest))
    ensures Complete(x, [w, w] + rest) && Unbroken(Pieces(x, [w, w] + rest))
  {
    WholeThen(x, w, rest);
    assert ([w, w] + rest)[2..] == rest;
    var v, b, y, later := FrameFirst(x, [w, w] + rest);
  }

  /** Whatever is left can go out frame by frame, that of `w` first. */
  lemma {:induction false} Finish(x: Writers, busy: set<int>, w: int) returns (t: seq<int>)
    requires x.halfway == {} && AllSendable(x.queues) && w in busy
    requires forall v | v in x.queues && x.queues[v] != [] :: v in busy
    ensures Complete(x, t) && Unbroken(Pieces(x, t))
    decreases |busy|, if w in x.queues then |x.queues[w]| else 0
  {
    if CanStep(x, w) {
      OnwardSendable(x, w);
      var rest := Finish(Onward(x, w), busy, w);
      t := [w, w] + rest;
      WholeStaysUnbroken(x, w, rest);
    } else if busy == {w} {
      t := [];
    } else {
      var fewer := busy - {w};
      var v := AnyOf(fewer);
      t := Finish(x, fewer, v);
    }
  }

  lemma FinishAll(x: Writers) returns (t: seq<int>)
    requires x.halfway == {} && AllSendable(x.queues)
    ensures Complete(x, t) && Unbroken(Pieces(x, t))
  {
    t := Finish(x, x.queues.Keys + {0}, 0);
  }

  lemma SameSchedule(s: seq<int>, t: seq<int>)
    requires |s| >= 2 && s[0] == s[1]
    ensures s + t == [s[0], s[0]] + (s[2..] + t)
  {
  }

  lemma {:induction false} UnbrokenCanFinish(x: Writers, s: seq<int>) returns (t: seq<int>)
    requires x.halfway == {} && AllSendable(x.queues) && CanRun(x, s) && Unbroken(Pieces(x, s))
    ensures Complete(x, s + t) && Unbroken(Pieces(x, s + t))
    decreases |s|
  {
    if s == [] {
      t := FinishAll(x);
      assert s + t == t;
    } else if |s| == 1 {
      var w := s[0];
      OnwardSendable(x, w);
      var rest := FinishAll(Onward(x, w));
      t := [w] + rest;
      WholeStaysUnbroken(x, w, rest);
      assert s + t == [w, w] + rest;
    } else {
      FirstTwo(x, s);
      var w, b, y, later := FrameFirst(x, s);
      t := UnbrokenCanFinish(y, later);
      WholeStaysUnbroken(x, w, later + t);
      SameSchedule(s, t);
    }
  }

  /** `t` completes the schedule, and the reader gets all messages. */
  ghost predicate Rescues(queues: map<int, seq<Body>>, s: seq<int>, t: seq<int>)
    requires AllSendable(queues)
  {
    var x := Writers(queues, {});
    Complete(x, s + t) && DecodesToMerge(Wire(Pieces(x, s + t)), queues)
  }

  lemma UnbrokenIsRescued(queues: map<int, seq<Body>>, s: seq<int>) returns (t: seq<int>)
    requires AllSendable(queues) && CanRun(Writers(queues, {}), s) && Unbroken(Pieces(Writers(queues, {}), s))
    ensures Rescues(queues, s, t)
  {
    t := UnbrokenCanFinish(Writers(queues, {}), s);
    MergeIffUnbroken(queues, s + t);
  }

  lemma RescuedIsUnbroken(queues: map<int, seq<Body>>, s: seq<int>, t: seq<int>)
    requires AllSendable(queues) && Rescues(queues, s, t)
    ensures CanRun(Writers(queues, {}), s) && Unbroken(Pieces(Writers(queues, {}), s))
  {
    MergeIffUnbroken(queues, s + t);
    RunOn(Writers(queues, {}), s, t);
  }

  /** A schedule that stops anywhere can still be completed to a stream the reader
      gets all messages from if and only if nothing has come in between so far. */
  lemma RescueIffUnbroken(queues: map<int, seq<Body>>, s: seq<int>)
    requires AllSendable(queues) && CanRun(Writers(queues, {}), s)
    ensures Unbroken(Pieces(Writers(queues, {}), s)) <==> exists t :: Rescues(queues, s, t)
  {
    if Unbroken(Pieces(Writers(queues, {}), s)) {
      var t := UnbrokenIsRescued(queues, s);
    }
    if t :| Rescues(queues, s, t) {
      RescuedIsUnbroken(queues, s, t);
    }
  }

  // --------------------------------------------------------------- the instance

  lemma PiecesFrom(x: Writers, w: int, y: Writers, rest: seq<int>)
    requires AllSendable(x.queues) && CanStep(x, w) && y == Step(x, w) && Complete(y, rest)
    ensures Complete(x, [w] + rest)
    ensures AllSendable(y.queues) && Pieces(x, [w] + rest) == [Next(x, w)] + Pieces(y, rest)
  {
    StepSendable(x, w);
    assert ([w] + rest)[1..] == rest;
  }

  /** The second writer sends its body, and then the first. */
  lemma TornEnd(a: Body, b: Body) returns (x: Writers)
    requires Sendable(a) && Sendable(b)
    ensures x == Writers(map[1 := [a], 2 := [b]], {1, 2}) && AllSendable(x.queues)
    ensures Complete(x, [2, 1]) && Pieces(x, [2, 1]) == [Rest(2, b), Rest(1, a)]
  {
    x := Writers(map[1 := [a], 2 := [b]], {1, 2});
    var y := Writers(map[1 := [a], 2 := []], {1});
    var z := Writers(map[1 := [], 2 := []], {});
    assert Step(y, 1) == z;
    PiecesFrom(y, 1, z, []);
    assert Step(x, 2) == y;
    PiecesFrom(x, 2, y, [1]);
    assert [2] + [1] == [2, 1] && [1] + [] == [1];
  }

  lemma TornPieces(a: Body, b: Body) returns (x: Writers)
    requires Sendable(a) && Sendable(b)
    ensures x == Writers(map[1 := [a], 2 := [b]], {}) && AllSendable(x.queues) && Complete(x, [1, 2, 2, 1])
    ensures Pieces(x, [1, 2, 2, 1]) == [Prefix(1, a), Prefix(2, b)] + [Rest(2, b), Rest(1, a)]
  {
    var z := TornEnd(a, b);
    var y := z.(halfway := {1});
    x := z.(halfway := {});
    PiecesFrom(y, 2, z, [2, 1]);
    PiecesFrom(x, 1, y, [2] + [2, 1]);
    assert [1] + ([2] + [2, 1]) == [1, 2, 2, 1];
  }

  /** The bytes of TornFrames are those of a schedule of two writers. */
  lemma TornSchedule(a: Body, b: Body) returns (x: Writers)
    requires Sendable(a) && Sendable(b)
    ensures x == Writers(map[1 := [a], 2 := [b]], {}) && AllSendable(x.queues) && Complete(x, [1, 2, 2, 1])
    ensures Wire(Pieces(x, [1, 2, 2, 1])) == BigEndian(|a|) + BigEndian(|b|) + b + a
    ensures !DecodesToMerge(Wire(Pieces(x, [1, 2, 2, 1])), x.queues)
  {
    x := TornPieces(a, b);
    var end := [Rest(2, b), Rest(1, a)];
    WireOfTwo(Prefix(1, a), Prefix(2, b), end);
    WireOfTwo(Rest(2, b), Rest(1, a), []);
    assert end + [] == end;
    NotUnbroken(Prefix(1, a), Prefix(2, b), end);
    MergeIffUnbroken(x.queues, [1, 2, 2, 1]);
  }

  lemma NotUnbroken(p: Piece, q: Piece, ps: seq<Piece>)
    requires p.Prefix? && q.w != p.w
    ensures !Unbroken([p, q] + ps)
  {
    var all := [p, q] + ps;
    assert all[0] == p && all[0 + 1] == q;
  }
}
