/** The packet reader from the texts of its configuration to the payloads its callers get. */
module UartConfigured {
  import opened Basics
  import opened UartLine
  import opened UartPacket
  import opened UartStream
  import Hex

  // ---- what the texts mean ----------------------------------------------------------------------------------

  /** The text of the delimiter `d`: its digits in either case, with or without `0x`; no text for none. */
  predicate SpelledBy(text: Option<string>, d: seq<byte>) {
    if d == [] then text == None
    else
      text.Some? && var t := text.value;
      Hex.Spells(t, d) || (|t| >= 2 && t[0] == '0' && (t[1] == 'x' || t[1] == 'X') && Hex.Spells(t[2..], d))
  }

  /** A configuration with the start sequence `a`, the end sequence `b`, and the length `n` or, for 0, none. */
  predicate Configures(cfg: PacketCfg, a: seq<byte>, b: seq<byte>, n: nat) {
    && SpelledBy(cfg.start, a) && SpelledBy(cfg.end, b)
    && if n > 0 then cfg.length == Some(n) else cfg.length == None || cfg.length.value <= 0
  }

  lemma SpelledDelim(text: Option<string>, d: seq<byte>)
    requires SpelledBy(text, d)
    ensures DelimOk(text) <==> |d| <= 32
    ensures Delim(text) == d
  {
    if d != [] {
      var t := text.value;
      if Hex.Spells(t, d) {
        Hex.SpelledDecodes(t, d);
        Hex.SpelledIsStrict(t, d, DELIM_MAX);
      } else {
        Hex.SpelledDecodes(t[2..], d);
        Hex.SpelledIsStrict(t[2..], d, DELIM_MAX);
        assert t == ['0', t[1]] + t[2..];
      }
    }
  }

  /** Such a configuration is accepted if and only if its delimiters have at most 32 bytes and there is an end
      sequence or a length; so one with only a start is refused. Accepted, each text is the delimiter it spells. */
  lemma AcceptsWhatIsSpelled(cfg: PacketCfg, a: seq<byte>, b: seq<byte>, n: nat)
    requires Configures(cfg, a, b, n)
    ensures Accept(cfg) == if |a| <= 32 && |b| <= 32 && (b != [] || n > 0) then Some(Framing(a, b, n)) else None
  {
    SpelledDelim(cfg.start, a);
    SpelledDelim(cfg.end, b);
  }

  /** A refused call reads nothing. */
  lemma OnlyStartRefused(cfg: PacketCfg, a: seq<byte>, src: Source, room: nat, c: Call)
    requires Configures(cfg, a, [], 0) && Called(src, cfg, room, c)
    ensures c.rc == UART_ERR_PACKET_CFG && c.src == src
  {
    AcceptsWhatIsSpelled(cfg, a, [], 0);
  }

  // ---- streams ------------------------------------------------------------------------------------------------

  /** Calls made one after the other on the same line. */
  predicate AllCalled(src: Source, cfg: PacketCfg, room: nat, calls: seq<Call>)
    decreases |calls|
  {
    calls == [] || (Called(src, cfg, room, calls[0]) && AllCalled(calls[0].src, cfg, room, calls[1..]))
  }

  /** The call returned the payload: code 0, its length, and its bytes in the buffer. */
  predicate Returns(c: Call, payload: seq<byte>) {
    c.rc == UART_OK && c.outLen == |payload| <= |c.buf| && c.buf[..c.outLen] == payload
  }

  lemma {:induction false} CallsReadBack(
      src: Source, cfg: PacketCfg, f: Framing, room: nat, parts: seq<Part>, calls: seq<Call>)
    requires Accept(cfg) == Some(f) && ReadsBack(src, f, room, parts)
    requires AllCalled(src, cfg, room, calls) && |calls| == |parts|
    ensures forall k :: 0 <= k < |parts| ==> Returns(calls[k], parts[k].payload)
    ensures (if calls == [] then src else calls[|calls| - 1].src) == After(src, |Stream(parts, f)|)
    decreases |parts|
  {
    if parts != [] {
      CallsReadBack(calls[0].src, cfg, f, room, parts[1..], calls[1..]);
      AfterAdd(src, |Piece(parts[0], f)|, |Stream(parts[1..], f)|);
      assert forall k :: 0 < k < |parts| ==> parts[k] == parts[1..][k - 1] && calls[k] == calls[1..][k - 1];
    }
  }

  /** A stream of clean frames, each noise, start sequence, payload and end sequence, on a line that keeps
      delivering in whatever pieces: as many calls return the payloads, one after the other, and leave the rest
      of the line. */
  lemma ConfiguredStream(cfg: PacketCfg, a: seq<byte>, b: seq<byte>, n: nat,
      src: Source, room: nat, parts: seq<Part>, rest: seq<byte>, calls: seq<Call>)
    requires Configures(cfg, a, b, n) && |a| <= 32 && 0 < |b| <= 32 && room > 0
    requires var f := Framing(a, b, n);
      && src.input == Stream(parts, f) + rest && Lively(src.script, |Stream(parts, f)|)
      && forall x :: x in parts ==> Clean(x, f, Cap(f, room))
    requires AllCalled(src, cfg, room, calls) && |calls| == |parts|
    ensures forall k :: 0 <= k < |parts| ==> Returns(calls[k], parts[k].payload)
    ensures calls != [] ==> calls[|calls| - 1].src.input == rest
  {
    var f := Framing(a, b, n);
    AcceptsWhatIsSpelled(cfg, a, b, n);
    StreamSurvives(src, f, room, parts, rest);
    CallsReadBack(src, cfg, f, room, parts, calls);
  }

  /** The same for one packet of fixed length behind its start sequence. */
  lemma ConfiguredFixed(cfg: PacketCfg, a: seq<byte>, n: nat, src: Source, room: nat, x: Part, rest: seq<byte>, c: Call)
    requires Configures(cfg, a, [], n) && |a| <= 32 && 0 < n <= room
    requires var f := Framing(a, [], n);
      |x.payload| == n && CleanStart(x, f) && src.input == Piece(x, f) + rest && Lively(src.script, |Piece(x, f)|)
    requires Called(src, cfg, room, c)
    ensures Returns(c, x.payload) && c.src.input == rest
  {
    AcceptsWhatIsSpelled(cfg, a, [], n);
    FixedReadBack(src, Framing(a, [], n), room, x, rest);
  }

  /** One frame and nothing else on the line. */
  lemma OneFrame(cfg: PacketCfg, a: seq<byte>, b: seq<byte>, src: Source, room: nat, x: Part, c: Call)
    requires Configures(cfg, a, b, 0) && |a| <= 32 && 0 < |b| <= 32 && room > 0
    requires var f := Framing(a, b, 0);
      src.input == Piece(x, f) && Lively(src.script, |Piece(x, f)|) && Clean(x, f, Cap(f, room))
    requires Called(src, cfg, room, c)
    ensures Returns(c, x.payload) && c.src.input == []
  {
    var f := Framing(a, b, 0);
    assert [x][1..] == [] && [c][1..] == [];
    assert Stream([x], f) == Piece(x, f) + [];
    assert Stream([x], f) == Piece(x, f) && Piece(x, f) == Piece(x, f) + [];
    assert AllCalled(c.src, cfg, room, []);
    ConfiguredStream(cfg, a, b, 0, src, room, [x], [], [c]);
    assert Returns([c][0], [x][0].payload);
  }

  /** With start "02" and end "03", the line 02 41 42 03 gives 41 42. */
  lemma StxEtx(src: Source, room: nat, c: Call)
    requires src.input == [2, 0x41, 0x42, 3] && Lively(src.script, |src.input|) && room >= 3
    requires Called(src, PacketCfg(Some("02"), Some("03"), None), room, c)
    ensures Returns(c, [0x41, 0x42]) && c.src.input == []
  {
    var cfg, x, f := PacketCfg(Some("02"), Some("03"), None), Part([], [0x41, 0x42]), Framing([2], [3], 0);
    StxEtxSpelled(cfg);
    StxEtxClean(x, f);
    assert Piece(x, f) == src.input;
    OneFrame(cfg, f.start, f.end, src, room, x, c);
  }

  lemma StxEtxSpelled(cfg: PacketCfg)
    requires cfg == PacketCfg(Some("02"), Some("03"), None)
    ensures Configures(cfg, [2], [3], 0)
  {
    assert Hex.Spells("02", [2]) && Hex.Spells("03", [3]);
  }

  lemma StxEtxClean(x: Part, f: Framing)
    requires x == Part([], [0x41, 0x42]) && f == Framing([2], [3], 0)
    ensures forall cap :: cap >= 3 ==> Clean(x, f, cap)
  {
    var head, body := x.gap + f.start, x.payload + f.end;
    assert head == [2] && body == [0x41, 0x42, 3];
    assert head[..1] == [2] && head[..0] == [];
    assert body[..1] == [0x41] && body[..2] == [0x41, 0x42] && body[..3] == body;
    assert body[2..] == [3];
  }
}
