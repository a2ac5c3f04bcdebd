/** readVarInt: the VarInt of the Minecraft protocol, as the relay reads it. */
module VarInt {
  import opened Wrappers
  import opened Bytes
  import opened Streams

  /** The most bytes the loop looks at: it gives up after the sixth. */
  const MAX_BYTES: nat := 6

  datatype Error = EndOfInput | TooLong

  /** What was read and how many bytes that took, also when it failed. */
  datatype Taken<+T> = Taken(result: Result<T, Error>, used: nat)

  /** Another byte follows. */
  predicate More(b: Byte) {
    b >= 128
  }

  function Digit(b: Byte): (d: nat)
    ensures d < 128
  {
    b as int % 128
  }

  /** The base-128 number with the low digit first. */
  function Sum(bs: seq<Byte>): nat {
    if bs == [] then 0 else Digit(bs[0]) + 128 * Sum(bs[1..])
  }

  /** How many bytes of `s`, up to `limit`, have their top bit set before the
      first that does not. */
  function Run(s: seq<Byte>, limit: nat): (n: nat)
    ensures n <= limit && n <= |s|
    ensures forall i | 0 <= i < n :: More(s[i])
    ensures n < limit && n < |s| ==> !More(s[n])
  {
    if limit == 0 || s == [] || !More(s[0]) then 0 else 1 + Run(s[1..], limit - 1)
  }

  /** One complete VarInt: the top bit is clear in the last byte only. */
  predicate IsVarInt(bs: seq<Byte>) {
    0 < |bs| <= MAX_BYTES && !More(bs[|bs| - 1]) && forall i | 0 <= i < |bs| - 1 :: More(bs[i])
  }

  /** What readVarInt does to the bytes `s`. */
  function Take(s: seq<Byte>): (t: Taken<nat>)
    ensures t.used <= |s| && t.used <= MAX_BYTES
  {
    var n := Run(s, MAX_BYTES);
    if n == MAX_BYTES then Taken(Err(TooLong), MAX_BYTES)
    else if n == |s| then Taken(Err(EndOfInput), n)
    else Taken(Ok(Sum(s[..n + 1])), n + 1)
  }

  /** Run counts exactly the leading bytes with their top bit set. */
  lemma RunIs(s: seq<Byte>, n: nat)
    requires n <= |s| && n <= MAX_BYTES && forall i | 0 <= i < n :: More(s[i])
    requires n == |s| || n == MAX_BYTES || !More(s[n])
    ensures Run(s, MAX_BYTES) == n
  {
  }

  lemma DigitIsMask(b: Byte)
    ensures BitAnd(b as int, 0x7F) == Digit(b)
    ensures BitAnd(b as int, 0x80) == 0 <==> !More(b)
  {
    assert Pow2(7) == 128;
    MaskIsRemainder(b as int, 7);
    TopBit(b as int, 7);
  }

  /** The next digit is worth 2^(7n) after n digits. */
  lemma {:induction false} SumSnoc(bs: seq<Byte>, b: Byte)
    ensures Sum(bs + [b]) == Sum(bs) + Digit(b) * Pow2(7 * |bs|)
  {
    if bs == [] {
      assert bs + [b] == [b] && [b][1..] == [];
    } else {
      assert (bs + [b])[1..] == bs[1..] + [b];
      SumSnoc(bs[1..], b);
      SevenMore(|bs| - 1);
      var p := Pow2(7 * (|bs| - 1));
      assert 128 * (Digit(b) * p) == Digit(b) * (128 * p);
    }
  }

  lemma SevenMore(n: nat)
    ensures Pow2(7 * (n + 1)) == 128 * Pow2(7 * n)
  {
    var k := 7 * n;
    assert Pow2(k + 2) == 4 * Pow2(k);
    assert Pow2(k + 4) == 4 * Pow2(k + 2);
    assert Pow2(k + 6) == 4 * Pow2(k + 4);
    assert Pow2(k + 7) == 2 * Pow2(k + 6);
  }

  /** n bytes carry a value below 2^(7n), hence never more than 42 bits. */
  lemma {:induction false} SumBelow(bs: seq<Byte>)
    ensures Sum(bs) < Pow2(7 * |bs|)
  {
    if bs != [] {
      SumBelow(bs[1..]);
      SevenMore(|bs| - 1);
    }
  }

  /** One turn of the loop appends a digit. */
  lemma OrAppendsDigit(bs: seq<Byte>, b: Byte)
    ensures BitOr(Sum(bs), ShiftLeft(BitAnd(b as int, 0x7F), 7 * |bs|)) == Sum(bs + [b])
    ensures BitAnd(b as int, 0x80) == 0 <==> !More(b)
  {
    DigitIsMask(b);
    SumBelow(bs);
    OrOfShifted(Sum(bs), Digit(b), 7 * |bs|);
    SumSnoc(bs, b);
  }

  /** The loop of readVarInt, with the shift and the bitwise operators of the
      source. */
  method Read(r: BufferingReader) returns (t: Taken<nat>)
    modifies r, r.conn
    ensures t == Take(old(r.conn.pending))
    ensures old(r.conn.pending) == old(r.conn.pending)[..t.used] + r.conn.pending
    ensures r.buf == old(r.buf) + old(r.conn.pending)[..t.used]
  {
    ghost var input, before, got := r.conn.pending, r.buf, [];
    var result, numRead: nat := 0, 0;
    while true
      invariant |got| == numRead < MAX_BYTES
      invariant input == got + r.conn.pending && r.buf == before + got
      invariant forall i | 0 <= i < numRead :: More(got[i])
      invariant result == Sum(got)
      decreases MAX_BYTES - numRead
    {
      var one, ok := r.ReadFull(1);
      if !ok {
        TakeIs(input, got, []);
        return Taken(Err(EndOfInput), numRead);
      }
      var b := one[0];
      assert one == [b];
      OrAppendsDigit(got, b);
      numRead := numRead + 1;
      var value := BitAnd(b as int, 0x7F);
      result := BitOr(result, ShiftLeft(value, 7 * (numRead - 1)));
      Assoc(got, one, r.conn.pending);
      Assoc(before, got, one);
      got := got + one;
      if BitAnd(b as int, 0x80) == 0 {
        break;
      }
      if numRead > 5 {
        TakeIs(input, got, r.conn.pending);
        return Taken(Err(TooLong), numRead);
      }
    }
    TakeIs(input, got, r.conn.pending);
    return Taken(Ok(result), numRead);
  }

  /** The outcome from the bytes `got` the loop has read. */
  lemma TakeIs(input: seq<Byte>, got: seq<Byte>, rest: seq<Byte>)
    requires input == got + rest && |got| <= MAX_BYTES
    requires forall i | 0 <= i < |got| - 1 :: More(got[i])
    ensures input[..|got|] == got
    ensures got != [] && !More(got[|got| - 1]) ==> Take(input) == Taken(Ok(Sum(got)), |got|)
    ensures |got| == MAX_BYTES && More(got[|got| - 1]) ==> Take(input) == Taken(Err(TooLong), |got|)
    ensures rest == [] && |got| < MAX_BYTES && (got == [] || More(got[|got| - 1])) ==>
              Take(input) == Taken(Err(EndOfInput), |got|)
  {
    assert forall i | 0 <= i < |got| :: input[i] == got[i];
    if got != [] && !More(got[|got| - 1]) {
      RunIs(input, |got| - 1);
    } else if |got| == MAX_BYTES || rest == [] {
      RunIs(input, |got|);
    }
  }

  // ------------------------------------------------------------ properties

  /** Reading succeeds exactly when one of the first six bytes ends the number. */
  lemma SucceedsIffEnds(s: seq<Byte>)
    ensures Take(s).result.Ok? <==> exists i :: 0 <= i < |s| && i < MAX_BYTES && !More(s[i])
  {
    var n := Run(s, MAX_BYTES);
    assert n < MAX_BYTES && n < |s| ==> !More(s[n]);
  }

  /** The accepted encodings, and their values. */
  lemma TakeIffVarInt(s: seq<Byte>, v: nat, n: nat)
    ensures Take(s) == Taken(Ok(v), n) <==> n <= |s| && IsVarInt(s[..n]) && v == Sum(s[..n])
  {
    if n <= |s| && IsVarInt(s[..n]) {
      forall i | 0 <= i < n - 1 ensures More(s[i]) {
        assert s[..n][i] == s[i];
      }
      RunIs(s, n - 1);
    }
  }

  lemma ValueFitsIn42Bits(s: seq<Byte>)
    requires Take(s).result.Ok?
    ensures Take(s).result.value < Pow2(7 * Take(s).used)
    ensures Take(s).result.value < 0x400_0000_0000
  {
    var n := Take(s).used;
    SumBelow(s[..n]);
    PowGrows(7 * n, 42);
    PowOf42();
  }

  lemma {:induction false} PowGrows(j: nat, k: nat)
    requires j <= k
    ensures Pow2(j) <= Pow2(k)
    decreases k
  {
    if j < k { PowGrows(j, k - 1); }
  }

  lemma PowOf42()
    ensures Pow2(42) == 0x400_0000_0000
  {
    assert Pow2(7 * 1) == 128 by { SevenMore(0); }
    SevenMore(1);
    SevenMore(2);
    SevenMore(3);
    SevenMore(4);
    SevenMore(5);
  }

  /** No accepted encoding is a proper prefix of another. */
  lemma PrefixFree(a: seq<Byte>, b: seq<Byte>)
    requires IsVarInt(a) && IsVarInt(b) && a <= b
    ensures a == b
  {
    assert a[|a| - 1] == b[|a| - 1];
  }

  /** What follows the number does not matter. */
  lemma TakeStable(s: seq<Byte>, rest: seq<Byte>)
    requires Take(s).result != Err(EndOfInput)
    ensures Take(s + rest) == Take(s)
  {
    var n := Run(s, MAX_BYTES);
    assert forall i | 0 <= i < |s| :: (s + rest)[i] == s[i];
    RunIs(s + rest, n);
    if n < MAX_BYTES { assert (s + rest)[..n + 1] == s[..n + 1]; }
  }

  /** The encoder of the Minecraft client: the low seven bits first. */
  function Encode(v: nat): (bs: seq<Byte>)
    ensures bs != []
  {
    if v < 128 then [v as Byte] else [(v % 128 + 128) as Byte] + Encode(v / 128)
  }

  lemma {:induction false} EncodeSum(v: nat)
    ensures Sum(Encode(v)) == v
    ensures !More(Encode(v)[|Encode(v)| - 1])
    ensures forall i | 0 <= i < |Encode(v)| - 1 :: More(Encode(v)[i])
  {
    if v >= 128 {
      var rest := Encode(v / 128);
      EncodeSum(v / 128);
      assert Encode(v)[1..] == rest;
    }
  }

  lemma {:induction false} EncodeLength(v: nat, n: nat)
    requires n > 0 && v < Pow2(7 * n)
    ensures |Encode(v)| <= n
    decreases n
  {
    SevenMore(n - 1);
    if v >= 128 {
      EncodeLength(v / 128, n - 1);
    }
  }

  /** Reading back what was encoded, for every value of up to 42 bits. */
  lemma RoundTrip(v: nat, rest: seq<Byte>)
    requires v < 0x400_0000_0000
    ensures IsVarInt(Encode(v))
    ensures Take(Encode(v) + rest) == Taken(Ok(v), |Encode(v)|)
  {
    PowOf42();
    EncodeSum(v);
    EncodeLength(v, 6);
    var s := Encode(v) + rest;
    assert s[..|Encode(v)|] == Encode(v);
    TakeIffVarInt(s, v, |Encode(v)|);
  }
}
