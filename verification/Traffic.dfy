/** The copy loops with their byte counters, and the speeds sampled from the
    counters once a second. */
module Traffic {
  import opened Bytes
  import opened Streams

  /** The counters are unsigned 64-bit integers. */
  const WRAP: nat := 0x1_0000_0000_0000_0000

  function Plus(a: int, b: int): (r: nat)
    ensures r < WRAP
  {
    (a + b) % WRAP
  }

  /** Subtraction of uint64, which wraps round below zero. */
  function Minus(a: int, b: int): (r: nat)
    ensures r < WRAP
  {
    (a - b) % WRAP
  }

  // ------------------------------------------------------- the copy loops

  /** atomic.Uint64, shared by all bridges of a session. */
  class Counter {
    var value: nat

    constructor ()
      ensures value == 0
    {
      value := 0;
    }

    method Add(n: nat)
      modifies this
      ensures value == Plus(old(value), n)
    {
      value := Plus(value, n);
    }
  }

  /** counterReader: counts every byte it hands on. */
  class CounterReader {
    const conn: Conn
    const counter: Counter

    constructor (conn: Conn, counter: Counter)
      ensures this.conn == conn && this.counter == counter
    {
      this.conn, this.counter := conn, counter;
    }

    method Read(max: nat) returns (data: seq<Byte>, end: bool)
      requires max > 0
      modifies conn, counter
      ensures old(conn.pending) == data + conn.pending && |data| <= max
      ensures data == [] ==> end
      ensures end ==> conn.pending == []
      ensures counter.value == (if data == [] then old(counter.value) else Plus(old(counter.value), |data|))
    {
      data, end := conn.Read(max);
      if |data| > 0 {
        counter.Add(|data|);
      }
    }
  }

  lemma PlusMore(start: nat, n: nat, k: nat)
    ensures Plus(Plus(start, n), k) == Plus(start, n + k)
  {
    var q := (start + n) / WRAP;
    assert start + n == q * WRAP + Plus(start, n);
    AddMultiple(Plus(start, n) + k, q);
  }

  lemma {:induction false} AddMultiple(a: int, q: nat)
    ensures (a + q * WRAP) % WRAP == a % WRAP
    decreases q
  {
    if q > 0 {
      AddMultiple(a, q - 1);
      AddOnce(a + (q - 1) * WRAP);
    }
  }

  lemma AddOnce(a: int)
    ensures (a + WRAP) % WRAP == a % WRAP
  {
  }

  /** io.Copy from a counting reader: `moved` bytes were read and counted, and
      what was written is a prefix of them. It is all of them unless a write
      failed, and then the source was read to its end. */
  method CopyCounted(dst: OutConn, src: CounterReader) returns (ok: bool, ghost moved: nat)
    requires src.counter.value < WRAP
    modifies dst, src.conn, src.counter
    ensures moved <= |old(src.conn.pending)| && src.conn.pending == old(src.conn.pending)[moved..]
    ensures src.counter.value == Plus(old(src.counter.value), moved)
    ensures ok ==> moved == |old(src.conn.pending)| && dst.sent == old(dst.sent) + old(src.conn.pending)
    ensures !ok ==> exists k: nat | k <= moved :: dst.sent == old(dst.sent) + old(src.conn.pending)[..k]
  {
    ghost var input, before, start := src.conn.pending, dst.sent, src.counter.value;
    ghost var got: seq<Byte> := [];
    var end := false;
    while !end
      invariant input == got + src.conn.pending && dst.sent == before + got
      invariant src.counter.value == Plus(start, |got|)
      invariant end ==> src.conn.pending == []
      decreases |src.conn.pending|, !end
    {
      var data;
      data, end := src.Read(32768);
      PlusMore(start, |got|, |data|);
      Assoc(got, data, src.conn.pending);
      ghost var sofar := got;
      got := got + data;
      assert input[|got|..] == src.conn.pending;
      if |data| > 0 {
        ghost var sent := dst.sent;
        var written := dst.Write(data);
        if !written {
          ghost var k: nat :| k <= |data| && dst.sent == sent + data[..k];
          Assoc(before, sofar, data[..k]);
          assert input[..|sofar| + k] == sofar + data[..k];
          return false, |got|;
        }
        Assoc(before, sofar, data);
      }
    }
    assert input == got;
    return true, |got|;
  }

  /** copyStream of the mod. */
  method CopyStream(input: Conn, out: OutConn) returns (ok: bool)
    modifies input, out
    ensures ok ==> out.sent == old(out.sent) + old(input.pending) && input.pending == []
    ensures !ok ==> exists k: nat | k <= |old(input.pending)| :: out.sent == old(out.sent) + old(input.pending)[..k]
  {
    ghost var all, before := input.pending, out.sent;
    ghost var got: seq<Byte> := [];
    var buffer := new Byte[8192];
    while true
      invariant all == got + input.pending && out.sent == before + got
      decreases |input.pending|
    {
      var read := input.ReadInto(buffer, 0, buffer.Length);
      if read < 0 {
        return true;
      }
      var chunk := buffer[0..read];
      Assoc(got, chunk, input.pending);
      ghost var sent := out.sent;
      var written := out.Write(chunk);
      if !written {
        ghost var k: nat :| k <= |chunk| && out.sent == sent + chunk[..k];
        Assoc(before, got, chunk[..k]);
        assert all[..|got| + k] == got + chunk[..k];
        return false;
      }
      Assoc(before, got, chunk);
      got := got + chunk;
    }
  }

  // ---------------------------------------------------------- the sampling

  /** One direction of the traffic of a session: the counter, the fields the
      statistics loop keeps, and for the specification all bytes ever read, all
      bytes read up to the last two samples, and the sum of all speeds. */
  datatype Meter = Meter(counter: nat, last: nat, speed: nat, total: nat, sampled: nat, before: nat, sum: nat)

  /** Both directions, and what a tick has loaded but not yet stored. */
  datatype Meters = Meters(rx: Meter, tx: Meter, tick: Tick)

  datatype Tick = Idle | LoadedRx(rx: nat, rxTotal: nat) | LoadedBoth(rx: nat, rxTotal: nat, tx: nat, txTotal: nat)

  /** A bridge reads bytes in one direction, or the tick takes its next step. */
  datatype Event = RxRead(n: nat) | TxRead(n: nat) | TickStep

  const ZERO: Meter := Meter(0, 0, 0, 0, 0, 0, 0)

  function Count(m: Meter, n: nat): Meter {
    m.(counter := Plus(m.counter, n), total := m.total + n)
  }

  function Store(m: Meter, current: nat, total: nat): Meter {
    var speed := Minus(current, m.last);
    m.(speed := speed, last := current, sampled := total, before := m.sampled, sum := m.sum + speed)
  }

  function Step(x: Meters, e: Event): Meters {
    match e
    case RxRead(n) => x.(rx := Count(x.rx, n))
    case TxRead(n) => x.(tx := Count(x.tx, n))
    case TickStep =>
      match x.tick
      case Idle => x.(tick := LoadedRx(x.rx.counter, x.rx.total))
      case LoadedRx(rx, rxTotal) => x.(tick := LoadedBoth(rx, rxTotal, x.tx.counter, x.tx.total))
      case LoadedBoth(rx, rxTotal, tx, txTotal) =>
        Meters(Store(x.rx, rx, rxTotal), Store(x.tx, tx, txTotal), Idle)
  }

  function Run(events: seq<Event>): Meters {
    if events == [] then Meters(ZERO, ZERO, Idle)
    else Step(Run(events[..|events| - 1]), events[|events| - 1])
  }

  predicate MeterOk(m: Meter) {
    && m.counter == m.total % WRAP
    && m.before <= m.sampled <= m.total
    && m.last == m.sampled % WRAP
    && m.speed == (m.sampled - m.before) % WRAP
    && m.sum % WRAP == m.last
  }

  predicate LoadOk(m: Meter, current: nat, total: nat) {
    current == total % WRAP && m.sampled <= total <= m.total
  }

  predicate Ok(x: Meters) {
    && MeterOk(x.rx) && MeterOk(x.tx)
    && (x.tick.LoadedRx? || x.tick.LoadedBoth? ==> LoadOk(x.rx, x.tick.rx, x.tick.rxTotal))
    && (x.tick.LoadedBoth? ==> LoadOk(x.tx, x.tick.tx, x.tick.txTotal))
  }

  lemma CountOk(m: Meter, n: nat)
    requires MeterOk(m)
    ensures MeterOk(Count(m, n))
  {
    PlusMore(0, m.total, n);
  }

  lemma {:induction false} SameRemainder(a: int, b: int, q: int)
    requires a == b + q * WRAP
    ensures a % WRAP == b % WRAP
  {
    if q >= 0 { AddMultiple(b, q); } else { assert b == a + (-q) * WRAP; AddMultiple(a, -q); }
  }

  lemma StoreOk(m: Meter, current: nat, total: nat)
    requires MeterOk(m) && LoadOk(m, current, total)
    ensures MeterOk(Store(m, current, total))
  {
    var q := total / WRAP - m.sampled / WRAP;
    assert total - m.sampled == (current - m.last) + q * WRAP;
    SameRemainder(total - m.sampled, current - m.last, q);
    var speed := Minus(current, m.last);
    var p := m.sum / WRAP + (if current < m.last then 1 else 0);
    assert m.sum == (m.sum / WRAP) * WRAP + m.last;
    assert speed == current - m.last + (if current < m.last then WRAP else 0);
    assert m.sum + speed == current + p * WRAP;
    SameRemainder(m.sum + speed, current, p);
  }

  lemma StepOk(x: Meters, e: Event)
    requires Ok(x)
    ensures Ok(Step(x, e))
  {
    match e {
      case RxRead(n) => CountOk(x.rx, n);
      case TxRead(n) => CountOk(x.tx, n);
      case TickStep =>
        if x.tick.LoadedBoth? {
          StoreOk(x.rx, x.tick.rx, x.tick.rxTotal);
          StoreOk(x.tx, x.tick.tx, x.tick.txTotal);
        }
    }
  }

  /** Under any interleaving of reads with the loads and stores of the ticks, the
      counters equal the bytes read so far modulo 2^64, each sampled speed is the
      number of bytes read between two samples modulo 2^64, and the speeds sampled
      so far add up to the last sample modulo 2^64. */
  lemma {:induction false} MetersAgree(events: seq<Event>)
    ensures Ok(Run(events))
  {
    if events != [] {
      MetersAgree(events[..|events| - 1]);
      StepOk(Run(events[..|events| - 1]), events[|events| - 1]);
    }
  }

  function BytesRead(events: seq<Event>, rx: bool): nat {
    if events == [] then 0 else
    var e := events[|events| - 1];
    BytesRead(events[..|events| - 1], rx) + (if e.RxRead? && rx then e.n else if e.TxRead? && !rx then e.n else 0)
  }

  /** What `total` stands for. */
  lemma {:induction false} TotalsAreBytesRead(events: seq<Event>)
    ensures Run(events).rx.total == BytesRead(events, true)
    ensures Run(events).tx.total == BytesRead(events, false)
  {
    if events != [] { TotalsAreBytesRead(events[..|events| - 1]); }
  }

  /** As long as fewer than 2^64 bytes go through, the counters and the speeds are
      the plain numbers. */
  lemma NoWrapIsExact(events: seq<Event>)
    requires BytesRead(events, true) < WRAP && BytesRead(events, false) < WRAP
    ensures var x := Run(events);
            && x.rx.counter == BytesRead(events, true) && x.tx.counter == BytesRead(events, false)
            && x.rx.speed == x.rx.sampled - x.rx.before && x.tx.speed == x.tx.sampled - x.tx.before
  {
    MetersAgree(events);
    TotalsAreBytesRead(events);
    SmallMeter(Run(events).rx);
    SmallMeter(Run(events).tx);
  }

  /** Reads only, no step of the tick. */
  predicate OnlyReads(events: seq<Event>) {
    forall i | 0 <= i < |events| :: !events[i].TickStep?
  }

  lemma {:induction false} ReadsKeepTick(before: seq<Event>, more: seq<Event>)
    requires OnlyReads(more)
    ensures Run(before + more).tick == Run(before).tick
    ensures Samples(Run(before + more)) == Samples(Run(before))
  {
    if more == [] {
      assert before + more == before;
    } else {
      var n := |more| - 1;
      assert (before + more)[..|before| + n] == before + more[..n];
      ReadsKeepTick(before, more[..n]);
    }
  }

  /** What the statistics loop keeps of a session. */
  function Samples(x: Meters): ((nat, nat, nat), (nat, nat, nat)) {
    ((x.rx.last, x.rx.speed, x.rx.sampled), (x.tx.last, x.tx.speed, x.tx.sampled))
  }

  lemma StepRun(before: seq<Event>, e: Event)
    ensures Run(before + [e]) == Step(Run(before), e)
  {
    assert (before + [e])[..|before|] == before;
  }

  /** A whole tick, with reads at any point in between: `first` is all that happened
      up to its load of the received bytes, `second` up to that of the sent bytes,
      `last` up to its store. Then the fields hold the counters as they were loaded,
      and the speeds are the bytes since the loads of the tick before. */
  lemma TickSamples(first: seq<Event>, mid: seq<Event>, late: seq<Event>)
    requires Run(first).tick == Idle && OnlyReads(mid) && OnlyReads(late)
    ensures var second := first + [TickStep] + mid;
            var x := Run(second + [TickStep] + late + [TickStep]);
            && x.tick == Idle
            && x.rx.sampled == BytesRead(first, true) && x.tx.sampled == BytesRead(second, false)
            && x.rx.last == BytesRead(first, true) % WRAP && x.tx.last == BytesRead(second, false) % WRAP
            && x.rx.speed == (BytesRead(first, true) - Run(first).rx.sampled) % WRAP
            && x.tx.speed == (BytesRead(second, false) - Run(first).tx.sampled) % WRAP
  {
    var second := first + [TickStep] + mid;
    var all := second + [TickStep] + late + [TickStep];
    TickStores(first, mid, late, second, all);
    TotalsAreBytesRead(first);
    TotalsAreBytesRead(second);
    MetersAgree(all);
  }

  /** ... in terms of the totals. */
  lemma TickStores(first: seq<Event>, mid: seq<Event>, late: seq<Event>, second: seq<Event>, all: seq<Event>)
    requires Run(first).tick == Idle && OnlyReads(mid) && OnlyReads(late)
    requires second == first + [TickStep] + mid && all == second + [TickStep] + late + [TickStep]
    ensures Run(all).tick == Idle
    ensures Run(all).rx.sampled == Run(first).rx.total && Run(all).tx.sampled == Run(second).tx.total
    ensures Run(all).rx.before == Run(first).rx.sampled && Run(all).tx.before == Run(first).tx.sampled
  {
    var loaded, both := first + [TickStep], second + [TickStep];
    StepRun(first, TickStep);
    ReadsKeepTick(loaded, mid);
    StepRun(second, TickStep);
    ReadsKeepTick(both, late);
    StepRun(both + late, TickStep);
    StoredTick(Run(first), Run(second), Run(both + late), Run(all));
  }

  lemma StoredTick(x: Meters, y: Meters, z: Meters, end: Meters)
    requires z.tick == LoadedBoth(x.rx.counter, x.rx.total, y.tx.counter, y.tx.total) && end == Step(z, TickStep)
    requires Samples(z) == Samples(x)
    ensures end.tick == Idle && end.rx.sampled == x.rx.total && end.tx.sampled == y.tx.total
    ensures end.rx.before == x.rx.sampled && end.tx.before == x.tx.sampled
  {
  }

  lemma SmallMeter(m: Meter)
    requires MeterOk(m) && m.total < WRAP
    ensures m.counter == m.total && m.speed == m.sampled - m.before
  {
  }
}
