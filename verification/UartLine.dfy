/** The serial line: what the operating system's `read`, `write` and `select` may answer, and the two
    transfer loops that hide it. */
module UartLine {
  import opened Basics

  /** What one `read` call meets: a signal, an error, the read timeout, or up to `1 + more` bytes. */
  datatype ReadEvent = Interrupted | Failed | Quiet | Chunk(more: nat)

  /** A receiving line: the events of the coming `read` calls and the bytes still on their way. When the
      script is over, or nothing is on its way, reads time out. */
  datatype Source = Source(script: seq<ReadEvent>, input: seq<byte>)

  /** The result of a read: -1, 0 on timeout, or the number of bytes. */
  datatype Got = Got(n: int, data: seq<byte>, src: Source)

  /** One successful, empty or failed `read`, interrupted ones being repeated. */
  function Read(src: Source, len: nat): (g: Got)
    requires len > 0
    ensures -1 <= g.n <= len && |g.data| == (if g.n > 0 then g.n else 0)
    ensures g.n > 0 ==> |g.src.script| < |src.script|
    decreases |src.script|
  {
    if src.script == [] then Got(0, [], src)
    else
      var rest := src.(script := src.script[1..]);
      match src.script[0]
      case Interrupted => Read(rest, len)
      case Failed => Got(-1, [], rest)
      case Quiet => Got(0, [], rest)
      case Chunk(more) =>
        var k := Min(Min(1 + more, len), |src.input|);
        Got(k, src.input[..k], rest.(input := src.input[k..]))
  }

  /** What is read and what is still on its way make up the input. */
  lemma {:induction false} ReadSplits(src: Source, len: nat)
    requires len > 0
    ensures var g := Read(src, len); g.data + g.src.input == src.input
    decreases |src.script|
  {
    if src.script != [] {
      var rest := src.(script := src.script[1..]);
      match src.script[0]
      case Interrupted => ReadSplits(rest, len);
      case Chunk(more) =>
        var k := Min(Min(1 + more, len), |src.input|);
        assert src.input[..k] + src.input[k..] == src.input;
      case _ =>
        assert [] + src.input == src.input;
    } else {
      assert [] + src.input == src.input;
    }
  }

  /** What one attempt to write meets: the answer of `select` (looked at only under a timeout) and that of
      `write`, which takes some of the bytes offered. */
  datatype Ready = Yes | TimedOut | Broken
  datatype WriteResult = WriteInterrupted | WriteFailed | Took(n: nat)
  datatype WriteEvent = WriteEvent(ready: Ready, result: WriteResult)

  predicate Stuck(script: seq<WriteEvent>, timed: bool) {
    script == [] || (timed && !script[0].ready.Yes?) || script[0].result.WriteFailed?
  }

  /** How many bytes of a buffer of `len` go out under `script`. */
  function Written(script: seq<WriteEvent>, len: nat, timed: bool): (w: nat)
    ensures w <= len
    decreases |script|
  {
    if len == 0 || Stuck(script, timed) then 0
    else if script[0].result.WriteInterrupted? then Written(script[1..], len, timed)
    else
      var k := Min(script[0].result.n, len);
      k + Written(script[1..], len - k, timed)
  }

  class Port {
    var src: Source
    var writes: seq<WriteEvent>
    var sent: seq<byte>

    constructor (src: Source, writes: seq<WriteEvent>)
      ensures this.src == src && this.writes == writes && sent == []
    {
      this.src, this.writes, sent := src, writes, [];
    }

    /** Reads up to `len` bytes into `buf` at `off`; what lies outside stays. */
    method UartRead(buf: array<byte>, off: nat, len: nat) returns (n: int)
      requires len > 0 && off + len <= buf.Length
      modifies this`src, buf
      ensures var g := Read(old(src), len);
        n == g.n && src == g.src && (n > 0 ==> buf[off..off + n] == g.data)
      ensures forall i :: 0 <= i < buf.Length && !(off <= i < off + n) ==> buf[i] == old(buf[i])
    {
      while src.script != [] && src.script[0].Interrupted?
        invariant Read(src, len) == Read(old(src), len)
        invariant buf[..] == old(buf[..])
        decreases |src.script|
      {
        src := src.(script := src.script[1..]);
      }
      var g := Read(src, len);
      n, src := g.n, g.src;
      forall i | 0 <= i < |g.data| {
        buf[off + i] := g.data[i];
      }
    }

    /** Writes all of `buf`, piece by piece: on success exactly `buf` went out, on failure (and when the
        script is over) a proper prefix of it did. A negative timeout blocks in `write` alone. */
    method UartWrite(buf: array<byte>, timeoutMs: int) returns (rc: int)
      modifies this`writes, this`sent
      ensures sent == old(sent) + buf[..Written(old(writes), buf.Length, timeoutMs >= 0)]
      ensures rc == (if Written(old(writes), buf.Length, timeoutMs >= 0) == buf.Length then buf.Length else -1)
    {
      var off := 0;
      while off < buf.Length
        invariant 0 <= off <= buf.Length
        invariant sent == old(sent) + buf[..off]
        invariant Written(old(writes), buf.Length, timeoutMs >= 0) ==
                  off + Written(writes, buf.Length - off, timeoutMs >= 0)
        decreases |writes|
      {
        if Stuck(writes, timeoutMs >= 0) {
          return -1;
        }
        var result := writes[0].result;
        writes := writes[1..];
        if result.Took? {
          var k := Min(result.n, buf.Length - off);
          Pieces(old(sent), buf[..], off, k);
          sent := sent + buf[off..off + k];
          off := off + k;
        }
      }
      rc := off;
    }
  }

  lemma Pieces(a: seq<byte>, b: seq<byte>, off: nat, k: nat)
    requires off + k <= |b|
    ensures (a + b[..off]) + b[off..off + k] == a + b[..off + k]
  {
    assert b[..off] + b[off..off + k] == b[..off + k];
  }

  // ---- byte by byte -----------------------------------------------------------------------------

  /** The bytes that one-byte reads deliver until one of them times out or fails. */
  function Avail(src: Source): seq<byte>
    decreases |src.script|
  {
    var g := Read(src, 1);
    if g.n > 0 then g.data + Avail(g.src) else []
  }

  /** The read that ends them. */
  function Stop(src: Source): (g: Got)
    ensures g.n == 0 || g.n == -1
    decreases |src.script|
  {
    var g := Read(src, 1);
    if g.n > 0 then Stop(g.src) else g
  }

  /** The line after `c` one-byte reads. */
  function After(src: Source, c: nat): Source
    decreases c
  {
    if c == 0 then src else After(Read(src, 1).src, c - 1)
  }

  /** Reading `c` of the available bytes leaves the later ones available, and ends the same way. */
  lemma {:induction false} AvailStep(src: Source, c: nat)
    requires c <= |Avail(src)|
    ensures Avail(After(src, c)) == Avail(src)[c..] && Stop(After(src, c)) == Stop(src)
    decreases c
  {
    if c > 0 {
      AvailStep(Read(src, 1).src, c - 1);
    }
  }

  /** The bytes delivered are those that were on their way, in order, none lost. */
  lemma {:induction false} AvailIsInput(src: Source, c: nat)
    requires c <= |Avail(src)|
    ensures Avail(src)[..c] + After(src, c).input == src.input
    decreases c
  {
    if c > 0 {
      var g := Read(src, 1);
      ReadSplits(src, 1);
      AvailIsInput(g.src, c - 1);
      ConcatAssoc(g.data, Avail(g.src)[..c - 1], After(g.src, c - 1).input);
    }
  }

  lemma {:induction false} AfterNext(src: Source, c: nat)
    ensures After(src, c + 1) == Read(After(src, c), 1).src
    decreases c
  {
    if c > 0 {
      AfterNext(Read(src, 1).src, c - 1);
    }
  }

  /** One more one-byte read after `c` bytes: either byte `c`, or the end. */
  lemma NextByte(src: Source, c: nat)
    requires c <= |Avail(src)|
    ensures var g := Read(After(src, c), 1);
      if c < |Avail(src)| then g.n == 1 && g.data == [Avail(src)[c]] && g.src == After(src, c + 1)
      else g == Stop(src) && g.n <= 0
  {
    AvailStep(src, c);
    AfterNext(src, c);
  }
}
