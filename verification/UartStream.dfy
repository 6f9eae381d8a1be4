/** What a caller of the packet reader may rely on: first occurrences, read-back of framed streams, and
    independence from how the line cuts its bytes into reads and writes. */
module UartStream {
  import opened Basics
  import opened UartLine
  import opened UartPacket

  // ---- the reader meets the first-occurrence specification -----------------------------------------

  predicate StartAt(a: seq<byte>, start: seq<byte>, i: nat) {
    if start == [] then i == 0 else FirstAt(a, start, i)
  }

  /** A frame: a body that starts after `i` bytes and is closed `j` bytes later, within the cap. */
  predicate FrameAt(a: seq<byte>, f: Framing, cap: nat, i: nat, j: nat) {
    StartAt(a, f.start, i) && i <= |a| && FirstAt(a[i..], f.end, j) && j <= cap
  }

  predicate OverflowAt(a: seq<byte>, f: Framing, cap: nat, i: nat) {
    StartAt(a, f.start, i) && i + cap < |a| && Absent(a[i..], f.end, 0, cap)
  }

  /** The reader is in its delimiter mode and has room. */
  predicate Delimited(f: Framing, room: nat) {
    f.end != [] && Cap(f, room) > 0
  }

  lemma StartFound(a: seq<byte>, start: seq<byte>, i: nat)
    ensures BodyStart(a, start) == Some(i) <==> StartAt(a, start, i)
  {
    FirstFinds(a, start, i);
  }

  lemma {:induction false} AfterAdd(src: Source, i: nat, j: nat)
    ensures After(After(src, i), j) == After(src, i + j)
    decreases i
  {
    if i > 0 {
      AfterAdd(Read(src, 1).src, i - 1, j);
    }
  }

  /** Behind its start sequence, a packet is what the body gives. */
  lemma BodyBehind(src: Source, f: Framing, room: nat, i: nat)
    requires Delimited(f, room) && StartAt(Avail(src), f.start, i) && i <= |Avail(src)|
    ensures ReadOne(src, f, room) == Ended(After(src, i), f.end, Cap(f, room))
    ensures Avail(After(src, i)) == Avail(src)[i..]
  {
    StartFound(Avail(src), f.start, i);
    AvailStep(src, i);
  }

  lemma EndedFrame(src: Source, end: seq<byte>, cap: nat, j: nat)
    requires FirstAt(Avail(src), end, j) && j <= cap
    ensures |end| <= j
    ensures Ended(src, end, cap) == Outcome(UART_OK, Some(Avail(src)[..j - |end|]), After(src, j))
  {
    FirstFinds(Avail(src), end, j);
  }

  lemma EndedOverflow(src: Source, end: seq<byte>, cap: nat)
    requires cap < |Avail(src)| && Absent(Avail(src), end, 0, cap)
    ensures Ended(src, end, cap) == Outcome(UART_ERR_ARG, None, After(src, cap + 1))
  {
    var e := First(Avail(src), end);
    if e.Some? {
      FirstFinds(Avail(src), end, e.value);
    }
  }

  lemma Inside(a: seq<byte>, i: nat, k: nat)
    requires i + k <= |a|
    ensures a[i..][..k] == a[i..i + k]
  {
  }

  /** A frame is returned without its delimiters and nothing beyond it is consumed. */
  lemma ReturnsFrame(src: Source, f: Framing, room: nat, i: nat, j: nat)
    requires Delimited(f, room) && FrameAt(Avail(src), f, Cap(f, room), i, j)
    ensures |f.end| <= j
    ensures ReadOne(src, f, room) == Outcome(UART_OK, Some(Avail(src)[i..i + j - |f.end|]), After(src, i + j))
  {
    BodyBehind(src, f, room, i);
    EndedFrame(After(src, i), f.end, Cap(f, room), j);
    AfterAdd(src, i, j);
    Inside(Avail(src), i, j - |f.end|);
  }

  /** A body without end sequence in its first `cap` bytes is refused after exactly one byte more. */
  lemma ReportsOverflow(src: Source, f: Framing, room: nat, i: nat)
    requires Delimited(f, room) && OverflowAt(Avail(src), f, Cap(f, room), i)
    ensures ReadOne(src, f, room) == Outcome(UART_ERR_ARG, None, After(src, i + Cap(f, room) + 1))
  {
    BodyBehind(src, f, room, i);
    EndedOverflow(After(src, i), f.end, Cap(f, room));
    AfterAdd(src, i, Cap(f, room) + 1);
  }

  /** One of the three things happens; this finds which. */
  lemma Trichotomy(src: Source, f: Framing, room: nat) returns (i: nat, j: nat)
    requires Delimited(f, room)
    ensures FrameAt(Avail(src), f, Cap(f, room), i, j) || OverflowAt(Avail(src), f, Cap(f, room), i)
            || ReadOne(src, f, room) == Halted(src)
  {
    var a, cap := Avail(src), Cap(f, room);
    i, j := 0, 0;
    var s := BodyStart(a, f.start);
    if s.Some? {
      i := s.value;
      StartFound(a, f.start, i);
      AvailStep(src, i);
      var e := First(a[i..], f.end);
      j := if e.Some? then e.value else 0;
      FirstFinds(a[i..], f.end, j);
      if e == None || j > cap {
        HaltsOrOverflows(src, f, room, i);
      }
    }
  }

  lemma HaltsOrOverflows(src: Source, f: Framing, room: nat, i: nat)
    requires Delimited(f, room) && BodyStart(Avail(src), f.start) == Some(i)
    requires Avail(After(src, i)) == Avail(src)[i..] && Stop(After(src, i)) == Stop(src)
    requires var e := First(Avail(src)[i..], f.end); e == None || e.value > Cap(f, room)
    ensures i + Cap(f, room) < |Avail(src)| || ReadOne(src, f, room) == Halted(src)
  {
  }

  /** A fixed length the buffer cannot hold, or a buffer without room, is refused as soon as the start sequence was
      seen, and nothing of the body is read. */
  lemma NoRoomRefused(src: Source, f: Framing, room: nat, i: nat)
    requires StartAt(Avail(src), f.start, i) && i <= |Avail(src)|
    requires if f.end == [] then f.length > room else room == 0
    ensures ReadOne(src, f, room) == Outcome(UART_ERR_ARG, None, After(src, i))
  {
    StartFound(Avail(src), f.start, i);
  }

  /** In every other case the packet ends with the line: on its timeout (0) or error (-1). */
  lemma OtherwiseHalts(src: Source, f: Framing, room: nat)
    requires Delimited(f, room)
    requires forall i: nat, j: nat :: !FrameAt(Avail(src), f, Cap(f, room), i, j)
    requires forall i: nat :: !OverflowAt(Avail(src), f, Cap(f, room), i)
    ensures ReadOne(src, f, room) == Halted(src)
  {
    var i, j := Trichotomy(src, f, room);
  }

  /** A non-zero length is what certifies a packet: it comes with return code 0 and exactly the packet. */
  lemma LengthCertifies(src: Source, f: Framing, room: nat, outLen: nat, buf: seq<byte>)
    requires Returned(ReadOne(src, f, room), outLen, buf)
    ensures ReadOne(src, f, room).packet.Some? ==> ReadOne(src, f, room).rc == UART_OK
    ensures outLen > 0 ==> ReadOne(src, f, room).packet == Some(buf[..outLen])
    ensures ReadOne(src, f, room).rc != UART_OK ==> outLen == 0
  {
  }

  /** Return code 0 alone does not, in delimiter mode: an empty frame and a timeout look the same to the
      caller. */
  lemma ZeroIsAmbiguous()
    ensures var f := Framing([], [10], 0);
      var frame := ReadOne(Source([Chunk(0)], [10]), f, 8);
      var timeout := ReadOne(Source([Quiet], []), f, 8);
      frame.rc == timeout.rc == UART_OK && frame.packet == Some([]) && timeout.packet == None
      && forall buf, n: nat :: Returned(frame, n, buf) <==> Returned(timeout, n, buf)
  {
    var f := Framing([], [10], 0);
    var src := Source([Chunk(0)], [10]);
    assert Read(src, 1) == Got(1, [10], Source([], []));
    assert Avail(src) == [10];
    assert EndsWith([10][..1], [10]);
    assert First([10], [10]) == Some(1);
    assert ReadOne(src, f, 8).packet == Some([10][..0]);
  }

  /** The frame at the front of the stream has no payload: its end sequence follows its start sequence. */
  predicate EmptyFrameAt(a: seq<byte>, f: Framing, cap: nat) {
    f.end != [] && exists i :: 0 <= i <= |a| && FrameAt(a, f, cap, i, |f.end|)
  }

  /** A completed packet is empty exactly when it is such a frame; one of fixed length never is. */
  lemma EmptyPacket(src: Source, f: Framing, room: nat)
    requires f.end != [] || f.length > 0
    ensures ReadOne(src, f, room).packet == Some([]) <==> EmptyFrameAt(Avail(src), f, Cap(f, room))
  {
    if f.end == [] {
      FixedLength(src, f, room);
    } else if Cap(f, room) > 0 {
      EmptyDelimited(src, f, room);
    }
  }

  lemma FixedLength(src: Source, f: Framing, room: nat)
    requires f.end == []
    ensures var o := ReadOne(src, f, room); o.packet.Some? ==> |o.packet.value| == f.length
  {
  }

  lemma EmptyDelimited(src: Source, f: Framing, room: nat)
    requires Delimited(f, room)
    ensures ReadOne(src, f, room).packet == Some([]) <==> EmptyFrameAt(Avail(src), f, Cap(f, room))
  {
    if ReadOne(src, f, room).packet == Some([]) {
      WhereEmpty(src, f, room);
    } else if EmptyFrameAt(Avail(src), f, Cap(f, room)) {
      var i: nat :| i <= |Avail(src)| && FrameAt(Avail(src), f, Cap(f, room), i, |f.end|);
      EmptyReturned(src, f, room, i);
    }
  }

  lemma EmptyReturned(src: Source, f: Framing, room: nat, i: nat)
    requires Delimited(f, room) && FrameAt(Avail(src), f, Cap(f, room), i, |f.end|)
    ensures ReadOne(src, f, room).packet == Some([])
  {
    ReturnsFrame(src, f, room, i, |f.end|);
    NothingBetween(Avail(src), i);
  }

  lemma NothingBetween(a: seq<byte>, i: nat)
    requires i <= |a|
    ensures a[i..i] == []
  {
  }

  lemma WhereEmpty(src: Source, f: Framing, room: nat)
    requires Delimited(f, room) && ReadOne(src, f, room).packet == Some([])
    ensures EmptyFrameAt(Avail(src), f, Cap(f, room))
  {
    var i, j := Trichotomy(src, f, room);
    if FrameAt(Avail(src), f, Cap(f, room), i, j) {
      ReturnsFrame(src, f, room, i, j);
      assert j == |f.end|;
    } else if OverflowAt(Avail(src), f, Cap(f, room), i) {
      ReportsOverflow(src, f, room, i);
    }
  }

  /** The caller's test for a packet, a length above 0, is right if and only if no empty frame stands at the
      front of the stream; so always for fixed lengths. */
  lemma LengthTellsUnlessEmpty(src: Source, f: Framing, room: nat, outLen: nat, buf: seq<byte>)
    requires f.end != [] || f.length > 0
    requires Returned(ReadOne(src, f, room), outLen, buf)
    ensures (outLen > 0 <==> ReadOne(src, f, room).packet.Some?) <==> !EmptyFrameAt(Avail(src), f, Cap(f, room))
  {
    EmptyPacket(src, f, room);
  }

  // ---- what a configured length means ------------------------------------------------------------------

  lemma EndedFits(src: Source, end: seq<byte>, cap: nat)
    ensures var o := Ended(src, end, cap); o.packet.Some? ==> |o.packet.value| + |end| <= cap
  {
  }

  /** With a length configured, a packet has exactly that length if and only if there is no end delimiter;
      with one, the length bounds payload and delimiter together, so every packet is shorter. */
  lemma LengthIsExactWithoutEnd(src: Source, f: Framing, room: nat)
    requires f.length > 0 && ReadOne(src, f, room).packet.Some?
    ensures var n := |ReadOne(src, f, room).packet.value|;
      && (n == f.length <==> f.end == [])
      && (f.end != [] ==> n + |f.end| <= f.length)
  {
    if f.end == [] {
      FixedLength(src, f, room);
    } else {
      var i := BodyStart(Avail(src), f.start).value;
      EndedFits(After(src, i), f.end, Cap(f, room));
    }
  }

  /** A body that fills the length together with its end delimiter: the packet is shorter than the length by
      the delimiter. */
  lemma LengthWithEnd(src: Source, f: Framing, room: nat, p: seq<byte>)
    requires f.start == [] && f.end != [] && f.length == |p| + |f.end| <= room
    requires Avail(src) == p + f.end && FirstAt(p + f.end, f.end, f.length)
    ensures ReadOne(src, f, room).packet == Some(p)
  {
    OnlyBody(src, f, room, f.length);
    assert (p + f.end)[..|p|] == p;
  }

  /** So a length of 3 with a one-byte delimiter gives two bytes. */
  lemma LengthThreeGivesTwo(src: Source, f: Framing, room: nat, p: seq<byte>)
    requires f.start == [] && f.end == [10] && f.length == 3 <= room
    requires p == [65, 66] && Avail(src) == p + f.end
    ensures ReadOne(src, f, room).packet == Some(p)
  {
    EndOfThree(p + f.end, f.end);
    LengthWithEnd(src, f, room, p);
  }

  /** Without a start sequence the frame begins at once. */
  lemma OnlyBody(src: Source, f: Framing, room: nat, j: nat)
    requires Delimited(f, room) && f.start == [] && FirstAt(Avail(src), f.end, j) && j <= Cap(f, room)
    ensures |f.end| <= j
    ensures ReadOne(src, f, room) == Outcome(UART_OK, Some(Avail(src)[..j - |f.end|]), After(src, j))
  {
    EndedFrame(src, f.end, Cap(f, room), j);
  }

  lemma EndOfThree(s: seq<byte>, end: seq<byte>)
    requires |s| == 3 && |end| == 1 && s[0] != end[0] && s[1] != end[0] && s[2] == end[0]
    ensures FirstAt(s, end, 3)
  {
    assert s[..3] == s && s[..1] == [s[0]] && s[..2] == [s[0], s[1]];
    assert s[2..] == end;
  }

  /** No more is available than is on its way. */
  lemma AvailWithin(src: Source)
    ensures |Avail(src)| <= |src.input|
  {
    AvailIsInput(src, |Avail(src)|);
  }

  // ---- framed streams are read back ------------------------------------------------------------------

  /** Noise before a frame, and the frame's payload. */
  datatype Part = Part(gap: seq<byte>, payload: seq<byte>)

  function Piece(x: Part, f: Framing): seq<byte> {
    (x.gap + f.start) + (x.payload + f.end)
  }

  function Stream(parts: seq<Part>, f: Framing): seq<byte> {
    if parts == [] then [] else Piece(parts[0], f) + Stream(parts[1..], f)
  }

  /** The start sequence first occurs right behind the noise. */
  predicate CleanStart(x: Part, f: Framing) {
    StartAt(x.gap + f.start, f.start, |x.gap + f.start|)
  }

  predicate Clean(x: Part, f: Framing, cap: nat) {
    && CleanStart(x, f)
    && FirstAt(x.payload + f.end, f.end, |x.payload + f.end|)
    && |x.payload| + |f.end| <= cap
  }

  /** Whether a first occurrence ends after `j` bytes is settled by those bytes. */
  lemma FirstAtPrefix(s: seq<byte>, t: seq<byte>, pat: seq<byte>)
    ensures FirstAt(s + t, pat, |s|) <==> FirstAt(s, pat, |s|)
  {
    assert forall k :: 0 <= k <= |s| ==> (s + t)[..k] == s[..k];
    assert s[..|s|] == s;
  }

  lemma CleanInContext(x: Part, f: Framing, cap: nat, rest: seq<byte>)
    requires f.end != []
    ensures var a := Piece(x, f) + rest; var i := |x.gap + f.start|;
      Clean(x, f, cap) <==> FrameAt(a, f, cap, i, |x.payload + f.end|)
  {
    var head, body := x.gap + f.start, x.payload + f.end;
    ConcatAssoc(head, body, rest);
    FirstAtPrefix(head, body + rest, f.start);
    FirstAtPrefix(body, rest, f.end);
    assert (head + (body + rest))[|head|..] == body + rest;
  }

  lemma PayloadInContext(x: Part, f: Framing, rest: seq<byte>)
    ensures var a := Piece(x, f) + rest; var i := |x.gap + f.start|;
      a[i..i + |x.payload|] == x.payload
  {
    var head, body := x.gap + f.start, x.payload + f.end;
    assert (head + body + rest)[|head|..|head| + |x.payload|] == body[..|x.payload|];
  }

  /** Different numbers of bytes read leave different lines. */
  lemma AfterInjective(src: Source, c: nat, d: nat)
    requires c <= |Avail(src)| && d <= |Avail(src)| && After(src, c) == After(src, d)
    ensures c == d
  {
    AvailIsInput(src, c);
    AvailIsInput(src, d);
  }

  /** What one call must do with the frame at the front of the line. */
  predicate ReadsPart(src: Source, f: Framing, room: nat, x: Part) {
    ReadOne(src, f, room) == Outcome(UART_OK, Some(x.payload), After(src, |Piece(x, f)|))
  }

  /** A frame is read back, payload exact and nothing beyond it touched, if and only if it is clean. */
  lemma ReadBack(src: Source, f: Framing, room: nat, x: Part, rest: seq<byte>)
    requires Delimited(f, room) && Avail(src) == Piece(x, f) + rest
    ensures ReadsPart(src, f, room, x) <==> Clean(x, f, Cap(f, room))
  {
    CleanInContext(x, f, Cap(f, room), rest);
    if Clean(x, f, Cap(f, room)) {
      ReturnsFrame(src, f, room, |x.gap + f.start|, |x.payload + f.end|);
      PayloadInContext(x, f, rest);
    } else if ReadsPart(src, f, room, x) {
      NoOtherFrame(src, f, room, x, rest);
    }
  }

  lemma NoOtherFrame(src: Source, f: Framing, room: nat, x: Part, rest: seq<byte>)
    requires Delimited(f, room) && Avail(src) == Piece(x, f) + rest && ReadsPart(src, f, room, x)
    ensures FrameAt(Avail(src), f, Cap(f, room), |x.gap + f.start|, |x.payload + f.end|)
  {
    var i, j := Trichotomy(src, f, room);
    if FrameAt(Avail(src), f, Cap(f, room), i, j) {
      SameFrame(src, f, room, x, i, j);
    } else if OverflowAt(Avail(src), f, Cap(f, room), i) {
      ReportsOverflow(src, f, room, i);
    }
  }

  lemma SameFrame(src: Source, f: Framing, room: nat, x: Part, i: nat, j: nat)
    requires Delimited(f, room) && ReadsPart(src, f, room, x) && |Piece(x, f)| <= |Avail(src)|
    requires FrameAt(Avail(src), f, Cap(f, room), i, j)
    ensures i == |x.gap + f.start| && j == |x.payload + f.end|
  {
    ReturnsFrame(src, f, room, i, j);
    AfterInjective(src, i + j, |Piece(x, f)|);
    assert |Avail(src)[i..i + j - |f.end|]| == j - |f.end|;
  }

  /** Call after call returns the parts in order, each leaving the line right behind its frame. */
  predicate ReadsBack(src: Source, f: Framing, room: nat, parts: seq<Part>)
    decreases parts
  {
    parts == [] || (ReadsPart(src, f, room, parts[0])
                    && ReadsBack(After(src, |Piece(parts[0], f)|), f, room, parts[1..]))
  }

  /** A stream of frames is read back exactly when every frame is clean. */
  lemma {:induction false} StreamReadsBack(src: Source, f: Framing, room: nat, parts: seq<Part>, rest: seq<byte>)
    requires Delimited(f, room) && Avail(src) == Stream(parts, f) + rest
    ensures ReadsBack(src, f, room, parts) <==> forall x :: x in parts ==> Clean(x, f, Cap(f, room))
    ensures Avail(After(src, |Stream(parts, f)|)) == rest
    decreases parts
  {
    AvailStep(src, |Stream(parts, f)|);
    if parts != [] {
      var p, more := Piece(parts[0], f), Stream(parts[1..], f);
      ConcatAssoc(p, more, rest);
      ReadBack(src, f, room, parts[0], more + rest);
      AvailStep(src, |p|);
      StreamReadsBack(After(src, |p|), f, room, parts[1..], rest);
      assert parts == [parts[0]] + parts[1..];
    }
  }

  // ---- any fragmentation will do ---------------------------------------------------------------------

  /** `n` reads bring something before one times out or fails, however many are interrupted. */
  predicate Lively(script: seq<ReadEvent>, n: nat)
    decreases |script|
  {
    n == 0 || (script != [] &&
               match script[0]
               case Interrupted => Lively(script[1..], n)
               case Chunk(_) => Lively(script[1..], n - 1)
               case _ => false)
  }

  /** A read on a lively line brings at least one of the bytes on their way. */
  lemma {:induction false} LivelyRead(src: Source, n: nat, len: nat)
    requires Lively(src.script, n) && n > 0 && len > 0 && src.input != []
    ensures var g := Read(src, len); g.n > 0 && Lively(g.src.script, n - 1)
    decreases |src.script|
  {
    if src.script[0].Interrupted? {
      LivelyRead(src.(script := src.script[1..]), n, len);
    }
  }

  lemma {:induction false} LivelyLess(script: seq<ReadEvent>, n: nat, m: nat)
    requires Lively(script, n) && m <= n
    ensures Lively(script, m)
    decreases |script|
  {
    if m > 0 {
      LivelyLess(script[1..], if script[0].Interrupted? then n else n - 1, if script[0].Interrupted? then m else m - 1);
    }
  }

  lemma {:induction false} LivelyAvail(src: Source, n: nat)
    requires Lively(src.script, n) && n <= |src.input|
    ensures n <= |Avail(src)| && Avail(src)[..n] == src.input[..n]
    decreases n
  {
    if n > 0 {
      LivelyRead(src, n, 1);
      var g := Read(src, 1);
      FirstOfLine(src, g);
      LivelyAvail(g.src, n - 1);
      FrontGrows(g.data, Avail(g.src), g.src.input, Avail(src), src.input, n);
    }
  }

  lemma FirstOfLine(src: Source, g: Got)
    requires g == Read(src, 1) && g.n > 0
    ensures |g.data| == 1 && Avail(src) == g.data + Avail(g.src) && src.input == g.data + g.src.input
    ensures |Avail(src)| == 1 + |Avail(g.src)| && |src.input| == 1 + |g.src.input|
  {
    ReadSplits(src, 1);
  }

  lemma FrontGrows(x: seq<byte>, a: seq<byte>, b: seq<byte>, xa: seq<byte>, xb: seq<byte>, n: nat)
    requires |x| == 1 && xa == x + a && xb == x + b
    requires 0 < n <= |xa| && n <= |xb| && a[..n - 1] == b[..n - 1]
    ensures xa[..n] == xb[..n]
  {
    assert xa[..n] == x + a[..n - 1] && xb[..n] == x + b[..n - 1];
  }

  lemma {:induction false} LivelyAfter(src: Source, n: nat, c: nat)
    requires Lively(src.script, n) && c <= n <= |src.input|
    ensures Lively(After(src, c).script, n - c) && After(src, c).input == src.input[c..]
    decreases c
  {
    if c > 0 {
      LivelyRead(src, n, 1);
      var g := Read(src, 1);
      ReadSplits(src, 1);
      LivelyAfter(g.src, n - 1, c - 1);
    }
  }

  /** The same for whole streams: signals and the cutting of reads change nothing. */
  lemma StreamSurvives(src: Source, f: Framing, room: nat, parts: seq<Part>, rest: seq<byte>)
    requires Delimited(f, room) && src.input == Stream(parts, f) + rest
    requires Lively(src.script, |Stream(parts, f)|)
    requires forall x :: x in parts ==> Clean(x, f, Cap(f, room))
    ensures ReadsBack(src, f, room, parts)
    ensures After(src, |Stream(parts, f)|).input == rest
  {
    var n := |Stream(parts, f)|;
    LivelyAvail(src, n);
    assert Avail(src) == Stream(parts, f) + Avail(src)[n..] by {
      assert src.input[..n] == Stream(parts, f);
      assert Avail(src) == Avail(src)[..n] + Avail(src)[n..];
    }
    StreamReadsBack(src, f, room, parts, Avail(src)[n..]);
    LivelyAfter(src, n, n);
  }

  lemma LivelyGather(src: Source, need: nat)
    requires Lively(src.script, need) && need <= |src.input|
    ensures Gather(src, need).data == src.input[..need] && Gather(src, need).src.input == src.input[need..]
  {
    var g := Gather(src, need);
    GathersAll(src, need);
    GatherSplits(src, need);
    Parts(g.data, g.src.input, src.input, need);
  }

  lemma Parts(a: seq<byte>, b: seq<byte>, all: seq<byte>, n: nat)
    requires a + b == all && |a| == n
    ensures a == all[..n] && b == all[n..]
  {
  }

  lemma {:induction false} GathersAll(src: Source, need: nat)
    requires Lively(src.script, need) && need <= |src.input|
    ensures |Gather(src, need).data| == need
    decreases need
  {
    if need > 0 {
      LivelyRead(src, need, need);
      var g := Read(src, need);
      LivelyLess(g.src.script, need - 1, need - g.n);
      ReadSplits(src, need);
      assert |g.data + g.src.input| == |src.input|;
      GathersAll(g.src, need - g.n);
    }
  }

  /** A fixed-length packet is read back from any lively line: the payload behind the first start
      sequence, and the rest left alone. */
  lemma FixedReadBack(src: Source, f: Framing, room: nat, x: Part, rest: seq<byte>)
    requires f.end == [] && |x.payload| == f.length <= room && CleanStart(x, f)
    requires src.input == Piece(x, f) + rest && Lively(src.script, |Piece(x, f)|)
    ensures ReadOne(src, f, room).rc == UART_OK && ReadOne(src, f, room).packet == Some(x.payload)
    ensures ReadOne(src, f, room).src.input == rest
  {
    var head := x.gap + f.start;
    assert x.payload + f.end == x.payload;
    assert Piece(x, f) == head + x.payload;
    ConcatAssoc(head, x.payload, rest);
    StartOnLine(src, f.start, head, x.payload + rest, |Piece(x, f)|);
    assert (x.payload + rest)[..f.length] == x.payload && (x.payload + rest)[f.length..] == rest;
    LivelyGather(After(src, |head|), f.length);
  }

  /** A first start sequence on a lively line is found, and the line behind it is as lively as needed. */
  lemma StartOnLine(src: Source, start: seq<byte>, head: seq<byte>, tail: seq<byte>, n: nat)
    requires StartAt(head, start, |head|) && src.input == head + tail
    requires Lively(src.script, n) && |head| <= n <= |src.input|
    ensures BodyStart(Avail(src), start) == Some(|head|)
    ensures After(src, |head|).input == tail && Lively(After(src, |head|).script, n - |head|)
  {
    var a := Avail(src);
    LivelyLess(src.script, n, |head|);
    LivelyAvail(src, |head|);
    LivelyAfter(src, n, |head|);
    assert a == head + a[|head|..];
    FirstAtPrefix(head, a[|head|..], start);
    StartFound(a, start, |head|);
  }

  /** A line on which a fixed-length packet was cut short completes no packet. */
  lemma CutShort(src: Source, f: Framing, room: nat, x: Part, w: nat)
    requires f.end == [] && |x.payload| == f.length > 0 && CleanStart(x, f)
    requires w < |Piece(x, f)| && src.input == Piece(x, f)[..w]
    ensures ReadOne(src, f, room).packet == None
  {
    var head, a := x.gap + f.start, Avail(src);
    AvailWithin(src);
    AvailIsInput(src, |a|);
    assert a == Piece(x, f)[..|a|];
    var i := BodyStart(a, f.start);
    if i.Some? {
      StartFound(a, f.start, i.value);
      StartNotEarlier(head, Piece(x, f), a, f.start, i.value);
      AvailIsInput(src, i.value);
      ShortGather(After(src, i.value), f.length);
    }
  }

  /** In a prefix of a clean stream the start sequence is not found before its place. */
  lemma StartNotEarlier(head: seq<byte>, piece: seq<byte>, a: seq<byte>, start: seq<byte>, i: nat)
    requires StartAt(head, start, |head|) && head <= piece && a <= piece
    requires StartAt(a, start, i)
    ensures i >= |head|
  {
    assert i <= |head| ==> head[..i] == piece[..i];
    assert a[..i] == piece[..i];
  }

  lemma ShortGather(src: Source, need: nat)
    requires |src.input| < need
    ensures |Gather(src, need).data| < need
  {
    var g := Gather(src, need);
    GatherSplits(src, need);
    assert |g.data + g.src.input| == |src.input|;
  }

  /** Sending and receiving a fixed-length packet: the receiver gets the payload if and only if the sender
      could write every byte, whatever pieces its writes and the receiver's reads were cut into. */
  lemma SentIsReceived(writes: seq<WriteEvent>, timed: bool, script: seq<ReadEvent>, f: Framing, room: nat, x: Part)
    requires f.end == [] && |x.payload| == f.length <= room && f.length > 0 && CleanStart(x, f)
    requires Lively(script, |Piece(x, f)|)
    ensures var w := Written(writes, |Piece(x, f)|, timed);
      ReadOne(Source(script, Piece(x, f)[..w]), f, room).packet == Some(x.payload) <==> w == |Piece(x, f)|
  {
    var w := Written(writes, |Piece(x, f)|, timed);
    if w == |Piece(x, f)| {
      assert Piece(x, f)[..w] == Piece(x, f) + [];
      FixedReadBack(Source(script, Piece(x, f)[..w]), f, room, x, []);
    } else {
      CutShort(Source(script, Piece(x, f)[..w]), f, room, x, w);
    }
  }
}
