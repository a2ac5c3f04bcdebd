/** Connections that deliver their bytes in chunks of any size, and the readers
    the relay and the mod put on top of them. */
module Streams {
  import opened Bytes

  /** The reading side of a connection: `pending` are the bytes it will still
      deliver before it ends (with EOF or an error). */
  class Conn {
    var pending: seq<Byte>

    constructor (bytes: seq<Byte>)
      ensures pending == bytes
    {
      pending := bytes;
    }

    /** Delivers between one and `max` bytes, or none at the end. The end may be
        reported together with the last bytes. */
    method Read(max: nat) returns (data: seq<Byte>, end: bool)
      requires max > 0
      modifies this
      ensures old(pending) == data + pending
      ensures |data| <= max
      ensures data == [] ==> end
      ensures end ==> pending == []
    {
      if pending == [] {
        return [], true;
      }
      var limit := if |pending| < max then |pending| else max;
      var k: nat :| 1 <= k <= limit;
      data, pending := pending[..k], pending[k..];
      end := *;
      end := end && pending == [];
    }

    /** io.ReadFull: exactly `n` bytes, or everything there is. */
    method ReadFull(n: nat) returns (data: seq<Byte>, ok: bool)
      modifies this
      ensures old(pending) == data + pending
      ensures ok <==> n <= |old(pending)|
      ensures |data| == if ok then n else |old(pending)|
    {
      data := [];
      var end := false;
      while |data| < n && !end
        invariant old(pending) == data + pending
        invariant |data| <= n
        invariant end ==> pending == []
        decreases n - |data|, !end
      {
        var chunk;
        chunk, end := Read(n - |data|);
        Assoc(data, chunk, pending);
        data := data + chunk;
      }
      ok := |data| == n;
    }

    /** InputStream.read of Java: fills part of `buf` from `off` and returns how
        many bytes, or -1 at the end. */
    method ReadInto(buf: array<Byte>, off: nat, len: nat) returns (n: int)
      requires 0 < len && off + len <= buf.Length
      modifies this, buf
      ensures n == -1 || 1 <= n <= len
      ensures n == -1 ==> old(pending) == [] && pending == [] && buf[..] == old(buf[..])
      ensures n != -1 ==> old(pending) == buf[off..off + n] + pending
      ensures n != -1 ==> buf[..off] == old(buf[..off]) && buf[off + n..] == old(buf[off + n..])
    {
      if pending == [] {
        return -1;
      }
      var limit := if |pending| < len then |pending| else len;
      var k: nat :| 1 <= k <= limit;
      for i := 0 to k
        invariant pending == old(pending)
        invariant buf[off..off + i] == pending[..i]
        invariant buf[..off] == old(buf[..off]) && buf[off + i..] == old(buf[off + i..])
      {
        buf[off + i] := pending[i];
      }
      pending := pending[k..];
      return k;
    }
  }

  /** The writing side of a connection: `sent` are the bytes handed to it. */
  class OutConn {
    var sent: seq<Byte>

    constructor ()
      ensures sent == []
    {
      sent := [];
    }

    /** Sends all of `data`, or fails after a part of it. */
    method Write(data: seq<Byte>) returns (ok: bool)
      modifies this
      ensures ok ==> sent == old(sent) + data
      ensures !ok ==> exists k: nat | k <= |data| :: sent == old(sent) + data[..k]
    {
      var k: nat :| k <= |data|;
      ok := k == |data|;
      sent := sent + data[..k];
    }
  }

  /** bufferingReader: records every byte it hands on. */
  class BufferingReader {
    const conn: Conn
    var buf: seq<Byte>

    constructor (conn: Conn)
      ensures this.conn == conn && buf == []
    {
      this.conn := conn;
      buf := [];
    }

    method Read(max: nat) returns (data: seq<Byte>, end: bool)
      requires max > 0
      modifies this, conn
      ensures old(conn.pending) == data + conn.pending && buf == old(buf) + data
      ensures |data| <= max
      ensures data == [] ==> end
      ensures end ==> conn.pending == []
    {
      data, end := conn.Read(max);
      if |data| > 0 {
        buf := buf + data;
      }
    }

    /** io.ReadFull on this reader: exactly `n` bytes, or everything there is. */
    method ReadFull(n: nat) returns (data: seq<Byte>, ok: bool)
      modifies this, conn
      ensures old(conn.pending) == data + conn.pending && buf == old(buf) + data
      ensures ok <==> n <= |old(conn.pending)|
      ensures |data| == if ok then n else |old(conn.pending)|
    {
      data := [];
      var end := false;
      while |data| < n && !end
        invariant old(conn.pending) == data + conn.pending && buf == old(buf) + data
        invariant |data| <= n
        invariant end ==> conn.pending == []
        decreases n - |data|, !end
      {
        var chunk;
        ghost var before := old(buf);
        chunk, end := Read(n - |data|);
        Assoc(data, chunk, conn.pending);
        Assoc(before, data, chunk);
        data := data + chunk;
      }
      ok := |data| == n;
    }
  }
}
