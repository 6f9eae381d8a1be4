/** The two hexadecimal readers (SPI `tx` strings, UART delimiters) and the hexadecimal trace printer.
    A C string is modelled by the characters before its terminating NUL. */
module Hex {
  import opened Basics

  predicate IsHex(c: char) {
    '0' <= c <= '9' || 'a' <= c <= 'f' || 'A' <= c <= 'F'
  }

  function HexVal(c: char): (v: int)
    requires IsHex(c)
    ensures 0 <= v < 16
  {
    if '0' <= c <= '9' then c as int - '0' as int
    else if 'a' <= c <= 'f' then 10 + (c as int - 'a' as int)
    else 10 + (c as int - 'A' as int)
  }

  predicate AllHex(s: string) {
    forall i :: 0 <= i < |s| ==> IsHex(s[i])
  }

  function StripPrefix(s: string): string {
    if |s| >= 2 && s[0] == '0' && (s[1] == 'x' || s[1] == 'X') then s[2..] else s
  }

  type nibble = x: int | 0 <= x < 16

  function Join(high: nibble, low: nibble): byte {
    var h: int := high;
    16 * h + low
  }

  /** The values of the hexadecimal digits of `s`, everything else dropped. */
  function Digits(s: string): seq<nibble> {
    if s == "" then []
    else
      var c := s[|s| - 1];
      Digits(s[..|s| - 1]) + (if IsHex(c) then [HexVal(c)] else [])
  }

  /** Nibbles paired into bytes, high nibble first; a last nibble without partner `d` becomes 0x0d. */
  function Pair(d: seq<nibble>): (r: seq<byte>) {
    seq((|d| + 1) / 2, k requires 0 <= k < (|d| + 1) / 2 =>
      if 2 * k + 1 < |d| then Join(d[2 * k], d[2 * k + 1]) else d[2 * k])
  }

  /** What an SPI `tx` string means. */
  function Decode(s: string): seq<byte> {
    Pair(Digits(StripPrefix(s)))
  }

  lemma {:induction false} DigitsConcat(a: string, b: string)
    ensures Digits(a + b) == Digits(a) + Digits(b)
  {
    if b == "" {
      assert a + b == a;
    } else {
      var n := |b| - 1;
      assert (a + b)[..|a + b| - 1] == a + b[..n];
      DigitsConcat(a, b[..n]);
    }
  }

  lemma {:induction false} DigitsOfAllHex(s: string)
    requires AllHex(s)
    ensures |Digits(s)| == |s|
    ensures forall i :: 0 <= i < |s| ==> Digits(s)[i] == HexVal(s[i])
  {
    if s != "" {
      DigitsOfAllHex(s[..|s| - 1]);
    }
  }

  /** The first `n` bytes of the buffer `o` are what the digits `d` say, the rest is as it was in `was`. */
  ghost predicate Written(o: seq<byte>, was: seq<byte>, d: seq<nibble>, n: nat) {
    && |o| == |was| && n <= |o| && n <= |Pair(d)|
    && o[..n] == Pair(d)[..n]
    && o[n..] == was[n..]
  }

  /** Storing the byte that completes the digits keeps the buffer in step with them. */
  lemma WrittenNext(o: seq<byte>, was: seq<byte>, d: seq<nibble>, d': seq<nibble>, n: nat)
    requires Written(o, was, d, n) && n < |o|
    requires d <= d' && 2 * n <= |d| && n < |Pair(d')|
    ensures Written(o[n := Pair(d')[n]], was, d', n + 1)
  {
    WrittenMore(o, was, d, d', n);
  }

  /** Digits already read settle the bytes they complete, whatever digits follow. */
  lemma WrittenMore(o: seq<byte>, was: seq<byte>, d: seq<nibble>, d': seq<nibble>, n: nat)
    requires Written(o, was, d, n) && d <= d' && 2 * n <= |d|
    ensures Written(o, was, d', n)
  {
    assert forall k :: 0 <= k < n ==> Pair(d)[k] == Pair(d')[k];
  }

  lemma DigitsNext(t: string, i: nat)
    requires i < |t|
    ensures Digits(t[..i + 1]) == Digits(t[..i]) + (if IsHex(t[i]) then [HexVal(t[i])] else [])
  {
    assert t[..i + 1][..i] == t[..i];
  }

  /** Where the reading loop is after digits `d`: `n` bytes stored, and a nibble kept when one is left over. */
  ghost predicate InStep(o: seq<byte>, was: seq<byte>, d: seq<nibble>, n: nat, haveHigh: bool, high: nibble) {
    && |d| == 2 * n + (if haveHigh then 1 else 0)
    && (haveHigh ==> high == d[2 * n])
    && Written(o, was, d, n)
  }

  lemma HighNext(o: seq<byte>, was: seq<byte>, d: seq<nibble>, n: nat, high: nibble, v: nibble)
    requires InStep(o, was, d, n, false, high)
    ensures InStep(o, was, d + [v], n, true, v)
  {
    WrittenMore(o, was, d, d + [v], n);
  }

  lemma LowNext(o: seq<byte>, was: seq<byte>, d: seq<nibble>, n: nat, high: nibble, v: nibble)
    requires InStep(o, was, d, n, true, high) && n < |o|
    ensures InStep(o[n := Join(high, v)], was, d + [v], n + 1, false, high)
  {
    assert Pair(d + [v])[n] == Join(high, v);
    WrittenNext(o, was, d, d + [v], n);
  }

  /** The reading loop: fills the buffer with completed pairs and stops at the end of the text or, when the
      buffer is full, at the next completed pair. */
  method ReadPairs(t: string, out: array<byte>, maxOut: nat) returns (n: nat, haveHigh: bool, high: nibble)
    requires maxOut <= out.Length
    modifies out
    ensures n <= maxOut && Written(out[..], old(out[..]), Digits(t), n)
    ensures n < maxOut ==> |Digits(t)| == 2 * n + (if haveHigh then 1 else 0)
    ensures n < maxOut && haveHigh ==> high == Digits(t)[2 * n]
  {
    n, haveHigh, high := 0, false, 0;
    ghost var was := out[..];
    var i := 0;
    while i < |t|
      invariant 0 <= i <= |t| && n <= maxOut
      invariant InStep(out[..], was, Digits(t[..i]), n, haveHigh, high)
    {
      DigitsNext(t, i);
      if IsHex(t[i]) {
        var v := HexVal(t[i]);
        if !haveHigh {
          HighNext(out[..], was, Digits(t[..i]), n, high, v);
          high, haveHigh := v, true;
        } else {
          if n >= maxOut {
            break;
          }
          LowNext(out[..], was, Digits(t[..i]), n, high, v);
          out[n] := Join(high, v);
          n, haveHigh := n + 1, false;
        }
      }
      i := i + 1;
    }
    WrittenPrefix(out[..], was, t, i, n);
  }

  lemma WrittenPrefix(o: seq<byte>, was: seq<byte>, t: string, i: nat, n: nat)
    requires i <= |t| && 2 * n <= |Digits(t[..i])| && Written(o, was, Digits(t[..i]), n)
    ensures Written(o, was, Digits(t), n)
    ensures i == |t| ==> t[..i] == t
  {
    DigitsConcat(t[..i], t[i..]);
    assert t == t[..i] + t[i..];
    WrittenMore(o, was, Digits(t[..i]), Digits(t), n);
  }

  /** The lenient SPI reader. It fills `out` in place and reports how many bytes it wrote.
      `rc` is -1 exactly when there is no room or no digit, and then the buffer is untouched. */
  method ParseHexBytes(s: string, out: array<byte>, maxOut: nat) returns (rc: int, n: nat)
    requires maxOut <= out.Length
    modifies out
    ensures rc == if maxOut == 0 || Decode(s) == [] then -1 else 0
    ensures n == Min(maxOut, |Decode(s)|)
    ensures out[..n] == Take(Decode(s), maxOut)
    ensures out[n..] == old(out[n..])
  {
    n := 0;
    if maxOut == 0 {
      return -1, 0;
    }
    var haveHigh, high;
    n, haveHigh, high := ReadPairs(StripPrefix(s), out, maxOut);
    ghost var d := Digits(StripPrefix(s));
    if haveHigh && n < maxOut {
      WrittenNext(out[..], old(out[..]), d, d, n);
      out[n] := high;
      n := n + 1;
    }
    rc := if n == 0 then -1 else 0;
  }

  /** The strings the strict reader accepts: an even, non-zero number of digits that fit. */
  predicate StrictOk(s: string, maxOut: nat) {
    var t := StripPrefix(s);
    0 < |t| && |t| % 2 == 0 && |t| / 2 <= maxOut && AllHex(t)
  }

  /** The strict UART reader. */
  method UartParseHex(s: string, out: array<byte>, maxOut: nat) returns (n: int)
    requires maxOut <= out.Length
    modifies out
    ensures n == if StrictOk(s, maxOut) then |StripPrefix(s)| / 2 else UART_ERR_ARG
    ensures StrictOk(s, maxOut) ==> n == |Decode(s)| && out[..n] == Decode(s)
  {
    var t := StripPrefix(s);
    if |t| == 0 || |t| % 2 != 0 || |t| / 2 > maxOut {
      return UART_ERR_ARG;
    }
    var outLen := |t| / 2;
    var i := 0;
    while i < outLen
      invariant 0 <= i <= outLen
      invariant AllHex(t[..2 * i])
      invariant forall k :: 0 <= k < i ==> out[k] == Join(HexVal(t[2 * k]), HexVal(t[2 * k + 1]))
    {
      if !IsHex(t[2 * i]) || !IsHex(t[2 * i + 1]) {
        return UART_ERR_ARG;
      }
      out[i] := Join(HexVal(t[2 * i]), HexVal(t[2 * i + 1]));
      assert t[..2 * (i + 1)] == t[..2 * i] + [t[2 * i], t[2 * i + 1]];
      i := i + 1;
    }
    assert t[..2 * outLen] == t;
    DigitsOfAllHex(t);
    n := outLen;
  }

  /** The strict reader accepts exactly the digit-only strings with no lone last digit that fit whole, so
      whenever it succeeds the lenient reader yields the same bytes, none of them cut off. */
  lemma StrictIsLenientOnCleanInput(s: string, maxOut: nat)
    ensures StrictOk(s, maxOut) <==>
      && Decode(s) != [] && Take(Decode(s), maxOut) == Decode(s)
      && |Digits(StripPrefix(s))| == |StripPrefix(s)| == 2 * |Decode(s)|
  {
    var t := StripPrefix(s);
    if StrictOk(s, maxOut) {
      DigitsOfAllHex(t);
    }
    if |Digits(t)| == |t| {
      DigitsAtMost(t);
    }
  }

  /** Only a string made of digits has as many digits as characters. */
  lemma {:induction false} DigitsAtMost(s: string)
    ensures |Digits(s)| <= |s|
    ensures |s| <= |Digits(s)| ==> AllHex(s)
  {
    if s != "" {
      DigitsAtMost(s[..|s| - 1]);
      assert forall i :: 0 <= i < |s| - 1 ==> s[i] == s[..|s| - 1][i];
    }
  }

  function HexDigit(v: nibble): (c: char)
    ensures IsHex(c) && HexVal(c) == v
  {
    if v < 10 then ('0' as int + v) as char else ('A' as int + (v - 10)) as char
  }

  function DumpByte(b: byte): string {
    [' ', HexDigit(b / 16), HexDigit(b % 16)]
  }

  /** The trace line of a buffer: " %02X" for each byte, then a newline. */
  function Dump(b: seq<byte>): string {
    DumpBytes(b) + "\n"
  }

  function DumpBytes(b: seq<byte>): string {
    if b == [] then "" else DumpBytes(b[..|b| - 1]) + DumpByte(b[|b| - 1])
  }

  method DumpHex(b: array<byte>) returns (line: string)
    ensures line == Dump(b[..])
  {
    line := "";
    var i := 0;
    while i < b.Length
      invariant 0 <= i <= b.Length
      invariant line == DumpBytes(b[..i])
    {
      assert b[..i + 1][..i] == b[..i];
      line := line + DumpByte(b[i]);
      i := i + 1;
    }
    assert b[..i] == b[..];
    line := line + "\n";
  }

  lemma DigitsOfByte(b: byte)
    ensures Digits(DumpByte(b)) == [b / 16, b % 16]
  {
    var x := DumpByte(b);
    assert x[..2] == [x[0], x[1]] && x[..2][..1] == [x[0]] && x[..2][..1][..0] == "";
    assert Digits([x[0]]) == [];
    assert Digits([x[0], x[1]]) == [HexVal(x[1])];
  }

  lemma {:induction false} DigitsOfDump(b: seq<byte>)
    ensures |Digits(DumpBytes(b))| == 2 * |b|
    ensures forall k :: 0 <= k < |b| ==>
      Digits(DumpBytes(b))[2 * k] == b[k] / 16 && Digits(DumpBytes(b))[2 * k + 1] == b[k] % 16
    ensures DumpBytes(b) == "" || DumpBytes(b)[0] == ' '
  {
    if b != [] {
      var n := |b| - 1;
      DigitsOfDump(b[..n]);
      DigitsConcat(DumpBytes(b[..n]), DumpByte(b[n]));
      DigitsOfByte(b[n]);
      NibblesSnoc(Digits(DumpBytes(b[..n])), b);
    }
  }

  /** Two nibbles for each byte, one byte on. */
  lemma NibblesSnoc(d: seq<nibble>, b: seq<byte>)
    requires b != [] && |d| == 2 * (|b| - 1)
    requires forall k :: 0 <= k < |b| - 1 ==> d[2 * k] == b[..|b| - 1][k] / 16 && d[2 * k + 1] == b[..|b| - 1][k] % 16
    ensures var e := d + [b[|b| - 1] / 16, b[|b| - 1] % 16];
      forall k :: 0 <= k < |b| ==> e[2 * k] == b[k] / 16 && e[2 * k + 1] == b[k] % 16
  {
    assert forall k :: 0 <= k < |b| - 1 ==> b[..|b| - 1][k] == b[k];
  }

  /** Reading a trace line back gives the buffer that was dumped. */
  lemma DecodeUndoesDump(b: seq<byte>)
    ensures Decode(Dump(b)) == b
  {
    DigitsOfDump(b);
    DigitsConcat(DumpBytes(b), "\n");
    assert "\n"[..0] == "";
    assert Digits("\n") == [];
    assert StripPrefix(Dump(b)) == Dump(b);
    var d := Digits(Dump(b));
    assert |Pair(d)| == |b|;
    forall k | 0 <= k < |b|
      ensures Pair(d)[k] == b[k]
    {
    }
  }

  /** The check a `tx` string passes before it is stored: the expression ^(0x)?[0-9A-Fa-f]+$. */
  predicate TxPattern(s: string) {
    || (s != "" && AllHex(s))
    || (|s| > 2 && s[..2] == "0x" && AllHex(s[2..]))
  }

  /** A stored `tx` always decodes, with every one of its digits used. */
  lemma TxPatternDecodes(s: string)
    requires TxPattern(s)
    ensures Decode(s) != []
    ensures |Decode(s)| == (|StripPrefix(s)| + 1) / 2
  {
    if |s| > 2 && s[..2] == "0x" && AllHex(s[2..]) {
      assert s[0] == s[..2][0] && s[1] == s[..2][1];
      assert StripPrefix(s) == s[2..];
    }
    DigitsOfAllHex(StripPrefix(s));
  }

  // ---- texts that spell bytes -----------------------------------------------------------------------------

  const LOWER := "0123456789abcdef"
  const UPPER := "0123456789ABCDEF"

  /** `c` is a digit for `v`, in either case. */
  predicate DigitFor(c: char, v: nibble) {
    c == LOWER[v] || c == UPPER[v]
  }

  /** `s` spells the bytes `b`, two digits each. */
  predicate Spells(s: string, b: seq<byte>) {
    && |s| == 2 * |b|
    && forall k :: 0 <= k < |b| ==> DigitFor(s[2 * k], b[k] / 16) && DigitFor(s[2 * k + 1], b[k] % 16)
  }

  lemma DigitMeans(c: char, v: nibble)
    requires DigitFor(c, v)
    ensures IsHex(c) && HexVal(c) == v
  {
  }

  lemma SpelledByte(s: string, b: seq<byte>, k: nat)
    requires Spells(s, b) && k < |b|
    ensures IsHex(s[2 * k]) && HexVal(s[2 * k]) == b[k] / 16
    ensures IsHex(s[2 * k + 1]) && HexVal(s[2 * k + 1]) == b[k] % 16
  {
    DigitMeans(s[2 * k], b[k] / 16);
    DigitMeans(s[2 * k + 1], b[k] % 16);
  }

  lemma SpelledIsHex(s: string, b: seq<byte>)
    requires Spells(s, b)
    ensures AllHex(s) && StripPrefix(s) == s
  {
    forall k | 0 <= k < |s| ensures IsHex(s[k]) {
      SpelledByte(s, b, k / 2);
      assert k == 2 * (k / 2) || k == 2 * (k / 2) + 1;
    }
  }

  /** A text spelling bytes, in either case and with or without prefix, decodes to them; a digit left over is a
      byte of its own. */
  lemma SpelledDecodes(s: string, b: seq<byte>)
    requires Spells(s, b)
    ensures Decode(s) == b
    ensures forall x :: x == 'x' || x == 'X' ==> Decode(['0', x] + s) == b
    ensures forall c, v: nibble :: DigitFor(c, v) ==> Decode(s + [c]) == b + [v]
  {
    SpelledIsHex(s, b);
    SpelledPairs(s, b);
    forall x | x == 'x' || x == 'X' ensures Decode(['0', x] + s) == b {
      assert (['0', x] + s)[2..] == s;
    }
    forall c, v: nibble | DigitFor(c, v) ensures Decode(s + [c]) == b + [v] {
      LoneDigit(s, b, c, v);
    }
  }

  lemma SpelledPairs(s: string, b: seq<byte>)
    requires Spells(s, b) && AllHex(s)
    ensures Pair(Digits(s)) == b
  {
    DigitsOfAllHex(s);
    assert |Pair(Digits(s))| == |b|;
    forall k | 0 <= k < |b| ensures Pair(Digits(s))[k] == b[k] {
      SpelledByte(s, b, k);
      TwoNibbles(Digits(s), k, b[k]);
    }
  }

  lemma TwoNibbles(d: seq<nibble>, k: nat, b: byte)
    requires 2 * k + 1 < |d| && d[2 * k] == b / 16 && d[2 * k + 1] == b % 16
    ensures k < |Pair(d)| && Pair(d)[k] == b
  {
  }

  lemma LoneDigit(s: string, b: seq<byte>, c: char, v: nibble)
    requires Spells(s, b) && DigitFor(c, v)
    ensures Decode(s + [c]) == b + [v]
  {
    DigitMeans(c, v);
    SpelledIsHex(s, b);
    SpelledPairs(s, b);
    DigitsOfAllHex(s);
    DigitsConcat(s, [c]);
    assert [c][..0] == "" && Digits([c]) == [v];
    NoPrefix(s, c);
    OneNibbleMore(Digits(s), v);
  }

  lemma NoPrefix(s: string, c: char)
    requires AllHex(s) && IsHex(c)
    ensures StripPrefix(s + [c]) == s + [c]
  {
  }

  lemma OneNibbleMore(d: seq<nibble>, v: nibble)
    requires |d| % 2 == 0
    ensures Pair(d + [v]) == Pair(d) + [v]
  {
  }

  /** The strict reader takes a text spelling bytes, with or without prefix, if they fit. */
  lemma SpelledIsStrict(s: string, b: seq<byte>, maxOut: nat)
    requires Spells(s, b)
    ensures StrictOk(s, maxOut) <==> 0 < |b| <= maxOut
    ensures forall x :: x == 'x' || x == 'X' ==> (StrictOk(['0', x] + s, maxOut) <==> 0 < |b| <= maxOut)
  {
    SpelledIsHex(s, b);
    forall x | x == 'x' || x == 'X' ensures StripPrefix(['0', x] + s) == s {
      assert (['0', x] + s)[2..] == s;
    }
  }
}
