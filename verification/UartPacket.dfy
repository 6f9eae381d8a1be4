/** Packets cut out of a byte stream that arrives in arbitrary pieces. */
module UartPacket {
  import opened Basics
  import opened UartLine
  import Hex

  const UART_OK := 0
  const UART_ERR_PACKET_CFG := -10
  const DELIM_MAX := 32

  // ---- the reference: first occurrences in the stream ----------------------------------------------

  predicate EndsWith(s: seq<byte>, pat: seq<byte>) {
    |pat| <= |s| && s[|s| - |pat|..] == pat
  }

  /** The least `j > i` such that the first `j` bytes of `s` end with `pat`. */
  function NextEnd(s: seq<byte>, pat: seq<byte>, i: nat): (r: Option<nat>)
    ensures r.Some? ==> i < r.value <= |s|
    decreases |s| - i
  {
    if i >= |s| then None
    else if EndsWith(s[..i + 1], pat) then Some(i + 1)
    else NextEnd(s, pat, i + 1)
  }

  function First(s: seq<byte>, pat: seq<byte>): (r: Option<nat>)
    ensures r.Some? ==> 0 < r.value <= |s|
  {
    NextEnd(s, pat, 0)
  }

  /** `pat` occurs in `s` so that it ends after `j` bytes, and no earlier. */
  predicate FirstAt(s: seq<byte>, pat: seq<byte>, j: nat) {
    0 < j <= |s| && EndsWith(s[..j], pat) && Absent(s, pat, 0, j - 1)
  }

  predicate Absent(s: seq<byte>, pat: seq<byte>, i: nat, n: nat)
    requires n <= |s|
  {
    forall k :: i < k <= n ==> !EndsWith(s[..k], pat)
  }

  lemma {:induction false} NextEndIsLeast(s: seq<byte>, pat: seq<byte>, i: nat)
    ensures match NextEnd(s, pat, i)
      case Some(j) => EndsWith(s[..j], pat) && Absent(s, pat, i, j - 1)
      case None => Absent(s, pat, i, |s|)
    decreases |s| - i
  {
    if i < |s| && !EndsWith(s[..i + 1], pat) {
      NextEndIsLeast(s, pat, i + 1);
    }
  }

  /** `First` finds exactly the first occurrence. */
  lemma FirstFinds(s: seq<byte>, pat: seq<byte>, j: nat)
    ensures First(s, pat) == Some(j) <==> FirstAt(s, pat, j)
    ensures First(s, pat) == None <==> Absent(s, pat, 0, |s|)
  {
    NextEndIsLeast(s, pat, 0);
  }

  // ---- configuration -----------------------------------------------------------------------------

  /** The `packet` section of the parameters: delimiters as hexadecimal text, and a length. */
  datatype PacketCfg = PacketCfg(start: Option<string>, end: Option<string>, length: Option<int>)

  /** An accepted configuration; no delimiter is `[]`, no length is 0. */
  datatype Framing = Framing(start: seq<byte>, end: seq<byte>, length: nat)

  predicate DelimOk(hex: Option<string>) {
    hex.Some? ==> Hex.StrictOk(hex.value, DELIM_MAX)
  }

  function Delim(hex: Option<string>): seq<byte> {
    if hex.Some? then Hex.Decode(hex.value) else []
  }

  function Accept(cfg: PacketCfg): Option<Framing> {
    var length: nat := if cfg.length.Some? && cfg.length.value > 0 then cfg.length.value else 0;
    var f := Framing(Delim(cfg.start), Delim(cfg.end), length);
    if DelimOk(cfg.start) && DelimOk(cfg.end) && (f.end != [] || f.length > 0) then Some(f) else None
  }

  // ---- what reading a packet does ------------------------------------------------------------------

  /** The return code, the packet if one was completed, and the line afterwards. */
  datatype Outcome = Outcome(rc: int, packet: Option<seq<byte>>, src: Source)

  function Halted(src: Source): Outcome {
    Outcome(Stop(src).n, None, Stop(src).src)
  }

  /** Reads until `need` bytes are there or a read gives none; also says how many came. */
  function Gather(src: Source, need: nat): (g: Got)
    ensures |g.data| <= need && (|g.data| < need ==> g.n <= 0)
    decreases need
  {
    if need == 0 then Got(0, [], src)
    else
      var g := Read(src, need);
      if g.n <= 0 then g
      else
        var r := Gather(g.src, need - g.n);
        Got(r.n, g.data + r.data, r.src)
  }

  /** Bytes gathered and bytes left make up the input. */
  lemma {:induction false} GatherSplits(src: Source, need: nat)
    ensures var g := Gather(src, need); g.data + g.src.input == src.input
    decreases need
  {
    if need == 0 {
      assert [] + src.input == src.input;
    } else {
      var g := Read(src, need);
      ReadSplits(src, need);
      if g.n > 0 {
        var r := Gather(g.src, need - g.n);
        GatherSplits(g.src, need - g.n);
        Regroup(g.data, r.data, r.src.input, g.src.input, src.input);
      }
    }
  }

  lemma Regroup(a: seq<byte>, b: seq<byte>, c: seq<byte>, bc: seq<byte>, all: seq<byte>)
    requires b + c == bc && a + bc == all
    ensures (a + b) + c == all
  {
    ConcatAssoc(a, b, c);
  }

  function Fixed(src: Source, need: nat): Outcome {
    var g := Gather(src, need);
    if |g.data| == need then Outcome(UART_OK, Some(g.data), g.src) else Outcome(g.n, None, g.src)
  }

  /** A body closed by `end` within `cap` bytes; one byte more is needed to notice an overflow. */
  function Ended(src: Source, end: seq<byte>, cap: nat): Outcome
  {
    var a := Avail(src);
    var e := First(a, end);
    if e.Some? && |end| <= e.value <= cap then Outcome(UART_OK, Some(a[..e.value - |end|]), After(src, e.value))
    else if |a| > cap then Outcome(UART_ERR_ARG, None, After(src, cap + 1))
    else Halted(src)
  }

  function Cap(f: Framing, room: nat): nat {
    if 0 < f.length < room then f.length else room
  }

  function Body(src: Source, f: Framing, room: nat): Outcome {
    if f.end == [] then
      if f.length > room then Outcome(UART_ERR_ARG, None, src) else Fixed(src, f.length)
    else if Cap(f, room) == 0 then Outcome(UART_ERR_ARG, None, src)
    else Ended(src, f.end, Cap(f, room))
  }

  /** Where the packet's body begins: behind the first start sequence, or at once without one. */
  function BodyStart(a: seq<byte>, start: seq<byte>): (r: Option<nat>)
    ensures r.Some? ==> r.value <= |a|
  {
    if start == [] then Some(0) else First(a, start)
  }

  function ReadOne(src: Source, f: Framing, room: nat): Outcome {
    var i := BodyStart(Avail(src), f.start);
    if i.Some? then Body(After(src, i.value), f, room) else Halted(src)
  }

  // ---- the reader ----------------------------------------------------------------------------------

  predicate MatchTail(buf: array<byte>, len: nat, pat: seq<byte>)
    requires len <= buf.Length
    reads buf
  {
    pat != [] && len >= |pat| && buf[len - |pat|..len] == pat
  }

  method LoadDelim(hex: Option<string>) returns (ok: bool, delim: seq<byte>)
    ensures ok == DelimOk(hex)
    ensures ok ==> delim == Delim(hex)
  {
    if hex == None {
      return true, [];
    }
    var buf := new byte[DELIM_MAX](_ => 0);
    var n := Hex.UartParseHex(hex.value, buf, DELIM_MAX);
    if n < 0 {
      return false, [];
    }
    return true, buf[..n];
  }

  method ReadByte(port: Port) returns (n: int, b: byte)
    modifies port`src
    ensures var g := Read(old(port.src), 1);
      n == g.n && port.src == g.src && (n > 0 ==> g.data == [b])
  {
    var one := new byte[1](_ => 0);
    n := port.UartRead(one, 0, 1);
    b := one[0];
    if n > 0 {
      assert one[0..0 + n] == [b];
    }
  }

  /** Appends `b` to the window kept at the front of the buffer; a full window drops its oldest byte. */
  method Slide(buf: array<byte>, pos: nat, width: nat, b: byte) returns (pos': nat)
    requires 0 < width <= buf.Length && pos <= width
    modifies buf
    ensures pos' == (if pos < width then pos + 1 else width)
    ensures buf[..pos'] == (if pos < width then old(buf[..pos]) else old(buf[1..width])) + [b]
  {
    if pos < width {
      buf[pos] := b;
      pos' := pos + 1;
    } else {
      forall i | 0 <= i < width - 1 {
        buf[i] := buf[i + 1];
      }
      buf[width - 1] := b;
      pos' := pos;
    }
  }

  /** What is left of the last `width` of the first `c` bytes. */
  predicate Window(w: seq<byte>, a: seq<byte>, c: nat, width: nat)
    requires c <= |a|
  {
    |w| == Min(c, width) && w == a[c - |w|..c]
  }

  lemma WindowSlides(w: seq<byte>, w': seq<byte>, a: seq<byte>, c: nat, width: nat)
    requires c < |a| && width > 0 && Window(w, a, c, width)
    requires w' == (if |w| < width then w else w[1..]) + [a[c]]
    ensures Window(w', a, c + 1, width)
  {
    var lo := c - |w|;
    if |w| < width {
      SliceGrows(a, lo, c);
    } else {
      SliceDropsFirst(a, lo, c);
      SliceGrows(a, lo + 1, c);
    }
  }

  lemma SliceGrows(a: seq<byte>, lo: nat, hi: nat)
    requires lo <= hi < |a|
    ensures a[lo..hi] + [a[hi]] == a[lo..hi + 1]
  {
  }

  lemma SliceDropsFirst(a: seq<byte>, lo: nat, hi: nat)
    requires lo < hi <= |a|
    ensures a[lo..hi][1..] == a[lo + 1..hi]
  {
  }

  lemma WindowMatches(w: seq<byte>, a: seq<byte>, c: nat, pat: seq<byte>)
    requires c <= |a| && Window(w, a, c, |pat|)
    ensures w == pat <==> EndsWith(a[..c], pat)
  {
  }

  /** After `c` bytes without a start sequence, the last of them are in the window. */
  predicate SeekingStart(src: Source, start: seq<byte>, w: seq<byte>, c: nat) {
    var a := Avail(src);
    c <= |a| && Window(w, a, c, |start|) && First(a, start) == NextEnd(a, start, c)
  }

  lemma SeekNext(src: Source, start: seq<byte>, w: seq<byte>, w': seq<byte>, c: nat)
    requires SeekingStart(src, start, w, c) && c < |Avail(src)| && start != []
    requires w' == (if |w| < |start| then w else w[1..]) + [Avail(src)[c]]
    ensures if w' == start then First(Avail(src), start) == Some(c + 1)
            else SeekingStart(src, start, w', c + 1)
  {
    WindowSlides(w, w', Avail(src), c, |start|);
    WindowMatches(w', Avail(src), c + 1, start);
  }

  /** One round of the seek: a byte into the window, or the end of the line. */
  method SeekByte(port: Port, ghost src: Source, start: seq<byte>, outBuf: array<byte>, pos: nat, ghost c: nat)
    returns (n: int, pos': nat)
    requires 0 < |start| <= outBuf.Length && pos == Min(c, |start|)
    requires SeekingStart(src, start, outBuf[..pos], c) && port.src == After(src, c)
    modifies port`src, outBuf
    ensures n <= 0 ==> c == |Avail(src)| && n == Stop(src).n && port.src == Stop(src).src
    ensures n > 0 ==> c < |Avail(src)| && port.src == After(src, c + 1) && pos' == Min(c + 1, |start|)
    ensures n > 0 ==> if outBuf[..pos'] == start then First(Avail(src), start) == Some(c + 1)
                      else SeekingStart(src, start, outBuf[..pos'], c + 1)
  {
    NextByte(src, c);
    var b;
    n, b := ReadByte(port);
    pos' := pos;
    if n > 0 {
      ghost var w := outBuf[..pos];
      pos' := Slide(outBuf, pos, |start|, b);
      SeekNext(src, start, w, outBuf[..pos'], c);
    }
  }

  /** Consumes the line up to and including the first start sequence. */
  method SeekStart(port: Port, start: seq<byte>, outBuf: array<byte>) returns (n: int)
    requires 0 < |start| <= outBuf.Length
    modifies port`src, outBuf
    ensures var i := First(Avail(old(port.src)), start);
      if i.Some? then n > 0 && port.src == After(old(port.src), i.value)
      else n == Stop(old(port.src)).n && port.src == Stop(old(port.src)).src
  {
    ghost var src := port.src;
    ghost var c := 0;
    var pos := 0;
    while true
      invariant pos == Min(c, |start|) && SeekingStart(src, start, outBuf[..pos], c) && port.src == After(src, c)
      decreases |Avail(src)| - c
    {
      n, pos := SeekByte(port, src, start, outBuf, pos, c);
      if n <= 0 {
        return;
      }
      c := c + 1;
      if MatchTail(outBuf, pos, start) {
        return;
      }
    }
  }

  /** One read of the fixed-length loop, appended to the `pos` bytes already there. */
  method ReadMore(port: Port, need: nat, pos: nat, outBuf: array<byte>) returns (n: int)
    requires pos < need <= outBuf.Length
    modifies port`src, outBuf
    ensures var g := Read(old(port.src), need - pos);
      n == g.n && port.src == g.src && (n > 0 ==> outBuf[..pos + n] == old(outBuf[..pos]) + g.data)
  {
    ghost var done := outBuf[..pos];
    n := port.UartRead(outBuf, pos, need - pos);
    if n > 0 {
      assert outBuf[..pos + n] == outBuf[..pos] + outBuf[pos..pos + n];
      assert outBuf[..pos] == done;
    }
  }

  method ReadExactly(port: Port, need: nat, outBuf: array<byte>) returns (rc: int, outLen: nat)
    requires need <= outBuf.Length
    modifies port`src, outBuf
    ensures var o := Fixed(old(port.src), need);
      rc == o.rc && port.src == o.src && Returned(o, outLen, outBuf[..])
  {
    var pos := 0;
    GatherNone(port.src, need, outBuf[..pos]);
    while pos < need
      invariant 0 <= pos <= need
      invariant Gathering(old(port.src), need, outBuf[..pos], port.src)
      decreases need - pos
    {
      var n := GatherMore(port, old(port.src), need, pos, outBuf);
      if n <= 0 {
        return n, 0;
      }
      pos := pos + n;
    }
    GatherAll(old(port.src), need, outBuf[..pos], port.src);
    assert outBuf[..][..pos] == outBuf[..pos];
    return UART_OK, pos;
  }

  /** One round of the loop: more bytes, or the outcome of the whole. */
  method GatherMore(port: Port, ghost src: Source, need: nat, pos: nat, outBuf: array<byte>) returns (n: int)
    requires pos < need <= outBuf.Length && Gathering(src, need, outBuf[..pos], port.src)
    modifies port`src, outBuf
    ensures n <= need - pos
    ensures n > 0 ==> Gathering(src, need, outBuf[..pos + n], port.src)
    ensures n <= 0 ==> Fixed(src, need) == Outcome(n, None, port.src)
  {
    GatherNext(src, need, outBuf[..pos], port.src);
    n := ReadMore(port, need, pos, outBuf);
  }

  /** `done` has been read and the line is now `cur`; the rest of the reading finishes the job. */
  predicate Gathering(src: Source, need: nat, done: seq<byte>, cur: Source) {
    |done| <= need &&
    var g := Gather(cur, need - |done|);
    Gather(src, need) == Got(g.n, done + g.data, g.src)
  }

  lemma GatherNone(src: Source, need: nat, done: seq<byte>)
    requires done == []
    ensures Gathering(src, need, done, src)
  {
    assert [] + Gather(src, need).data == Gather(src, need).data;
  }

  lemma GatherNext(src: Source, need: nat, done: seq<byte>, cur: Source)
    requires Gathering(src, need, done, cur) && |done| < need
    ensures var g := Read(cur, need - |done|);
      if g.n <= 0 then Fixed(src, need) == Outcome(g.n, None, g.src)
      else Gathering(src, need, done + g.data, g.src)
  {
    var g := Read(cur, need - |done|);
    if g.n > 0 {
      ConcatAssoc(done, g.data, Gather(g.src, need - |done| - g.n).data);
    }
  }

  lemma GatherAll(src: Source, need: nat, done: seq<byte>, cur: Source)
    requires Gathering(src, need, done, cur) && |done| == need
    ensures Fixed(src, need) == Outcome(UART_OK, Some(done), cur)
  {
    assert done + [] == done;
  }

  /** What the caller finds in `*out_len` and its buffer. */
  predicate Returned(o: Outcome, outLen: nat, buf: seq<byte>) {
    outLen <= |buf| && match o.packet
    case Some(p) => buf[..outLen] == p
    case None => outLen == 0
  }

  method ReadUntil(port: Port, end: seq<byte>, cap: nat, outBuf: array<byte>) returns (rc: int, outLen: nat)
    requires end != [] && cap <= outBuf.Length
    modifies port`src, outBuf
    ensures var o := Ended(old(port.src), end, cap);
      rc == o.rc && port.src == o.src && Returned(o, outLen, outBuf[..])
  {
    ghost var src := port.src;
    var pos := 0;
    while true
      invariant Seeking(src, end, outBuf[..], pos) && pos <= cap && port.src == After(src, pos)
      decreases |Avail(src)| - pos
    {
      var more;
      more, rc, outLen := TakeByte(port, src, end, cap, outBuf, pos);
      if !more {
        return;
      }
      pos := pos + 1;
    }
  }

  /** One round of the loop: the end is sought further on, or the outcome of the whole. */
  method TakeByte(port: Port, ghost src: Source, end: seq<byte>, cap: nat, outBuf: array<byte>, pos: nat)
    returns (more: bool, rc: int, outLen: nat)
    requires end != [] && pos <= cap <= outBuf.Length
    requires Seeking(src, end, outBuf[..], pos) && port.src == After(src, pos)
    modifies port`src, outBuf
    ensures more ==> pos < cap && Seeking(src, end, outBuf[..], pos + 1) && port.src == After(src, pos + 1)
    ensures !more ==> var o := Ended(src, end, cap);
      rc == o.rc && port.src == o.src && Returned(o, outLen, outBuf[..])
  {
    NextByte(src, pos);
    var n, b := ReadByte(port);
    if n <= 0 {
      Stopped(src, end, cap, outBuf[..], pos);
      return false, n, 0;
    }
    if pos >= cap {
      Overrun(src, end, cap, outBuf[..], pos);
      return false, UART_ERR_ARG, 0;
    }
    Sought(src, end, cap, outBuf[..], pos);
    outBuf[pos] := b;
    if MatchTail(outBuf, pos + 1, end) {
      return false, UART_OK, pos + 1 - |end|;
    }
    return true, 0, 0;
  }

  /** The first `pos` bytes are in the buffer and hold no end sequence. */
  predicate Seeking(src: Source, end: seq<byte>, buf: seq<byte>, pos: nat) {
    var a := Avail(src);
    pos <= |a| && pos <= |buf| && buf[..pos] == a[..pos] && First(a, end) == NextEnd(a, end, pos)
  }

  lemma Stopped(src: Source, end: seq<byte>, cap: nat, buf: seq<byte>, pos: nat)
    requires Seeking(src, end, buf, pos) && pos <= cap && pos == |Avail(src)|
    ensures Ended(src, end, cap) == Halted(src)
  {
  }

  lemma Overrun(src: Source, end: seq<byte>, cap: nat, buf: seq<byte>, pos: nat)
    requires Seeking(src, end, buf, pos) && pos == cap < |Avail(src)|
    ensures Ended(src, end, cap) == Outcome(UART_ERR_ARG, None, After(src, cap + 1))
  {
  }

  /** With the next byte the end is reached, or sought further on. */
  lemma Sought(src: Source, end: seq<byte>, cap: nat, buf: seq<byte>, pos: nat)
    requires Seeking(src, end, buf, pos) && pos < cap <= |buf| && pos < |Avail(src)| && end != []
    ensures var w := buf[pos := Avail(src)[pos]];
      if pos + 1 >= |end| && w[pos + 1 - |end|..pos + 1] == end then
        Ended(src, end, cap) == Outcome(UART_OK, Some(w[..pos + 1 - |end|]), After(src, pos + 1))
      else Seeking(src, end, w, pos + 1)
  {
    var a, w := Avail(src), buf[pos := Avail(src)[pos]];
    PrefixGrows(a, buf, pos);
    TailOfPrefix(w, a, pos + 1, end);
  }

  lemma PrefixGrows(a: seq<byte>, buf: seq<byte>, pos: nat)
    requires pos < |a| && pos < |buf| && buf[..pos] == a[..pos]
    ensures buf[pos := a[pos]][..pos + 1] == a[..pos + 1]
  {
    assert forall k :: 0 <= k < pos ==> buf[..pos][k] == a[..pos][k];
  }

  lemma TailOfPrefix(buf: seq<byte>, a: seq<byte>, pos: nat, pat: seq<byte>)
    requires pos <= |a| && pos <= |buf| && buf[..pos] == a[..pos]
    ensures EndsWith(a[..pos], pat) <==> pos >= |pat| && buf[pos - |pat|..pos] == pat
    ensures pos >= |pat| ==> buf[..pos - |pat|] == a[..pos - |pat|]
  {
    if pos >= |pat| {
      assert buf[pos - |pat|..pos] == buf[..pos][pos - |pat|..];
      assert buf[..pos - |pat|] == buf[..pos][..pos - |pat|];
    }
  }

  /** How a call ended: what it returned, the buffer, and the line afterwards. */
  datatype Call = Call(rc: int, outLen: nat, buf: seq<byte>, src: Source)

  /** The call did what the configuration says. */
  predicate Called(src: Source, cfg: PacketCfg, room: nat, c: Call) {
    match Accept(cfg)
    case None => c.rc == UART_ERR_PACKET_CFG && c.src == src
    case Some(f) =>
      var o := ReadOne(src, f, room);
      c.rc == o.rc && c.src == o.src && Returned(o, c.outLen, c.buf)
  }

  /** Reads one packet into `outBuf`. `*out_len` keeps what the caller had there when the configuration is
      refused, and is 0 whenever no packet was completed. The buffer must hold a start sequence, and its
      size must be an `int`, in which it is compared with the length. */
  method UartReadPacket(port: Port, params: Option<PacketCfg>, outBuf: array<byte>, callerLen: nat)
    returns (rc: int, outLen: nat)
    requires outBuf.Length < 0x8000_0000
    requires params.Some? && Accept(params.value).Some? ==> |Accept(params.value).value.start| <= outBuf.Length
    modifies port`src, outBuf
    ensures params == None ==> rc == UART_ERR_ARG
    ensures params == None || Accept(params.value) == None ==>
      outLen == callerLen && port.src == old(port.src) && outBuf[..] == old(outBuf[..])
    ensures params.Some? ==>
      Called(old(port.src), params.value, outBuf.Length, Call(rc, outLen, outBuf[..], port.src))
  {
    outLen := callerLen;
    if params == None {
      return UART_ERR_ARG, outLen;
    }
    var cfg := params.value;
    var ok, start := LoadDelim(cfg.start);
    if !ok {
      return UART_ERR_PACKET_CFG, outLen;
    }
    var end;
    ok, end := LoadDelim(cfg.end);
    if !ok {
      return UART_ERR_PACKET_CFG, outLen;
    }
    var useLen := cfg.length.Some? && cfg.length.value > 0;
    if end == [] && !useLen {
      return UART_ERR_PACKET_CFG, outLen;
    }
    var length: nat := if useLen then cfg.length.value else 0;
    rc, outLen := ReadAccepted(port, Framing(start, end, length), outBuf);
  }

  method ReadAccepted(port: Port, f: Framing, outBuf: array<byte>) returns (rc: int, outLen: nat)
    requires |f.start| <= outBuf.Length && (f.end != [] || f.length > 0)
    modifies port`src, outBuf
    ensures var o := ReadOne(old(port.src), f, outBuf.Length);
      rc == o.rc && port.src == o.src && Returned(o, outLen, outBuf[..])
  {
    if f.start != [] {
      rc := SeekStart(port, f.start, outBuf);
      if rc <= 0 {
        return rc, 0;
      }
    }
    if f.end == [] {
      if f.length > outBuf.Length {
        return UART_ERR_ARG, 0;
      }
      rc, outLen := ReadExactly(port, f.length, outBuf);
      return;
    }
    var cap := outBuf.Length;
    if 0 < f.length < cap {
      cap := f.length;
    }
    if cap == 0 {
      return UART_ERR_ARG, 0;
    }
    rc, outLen := ReadUntil(port, f.end, cap, outBuf);
  }
}
