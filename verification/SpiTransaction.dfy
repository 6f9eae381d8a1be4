/** One SPI transaction: how it is loaded, which frame it sends and what it hands to the callback. */
module SpiTransaction {
  import opened Basics
  import opened Yaml
  import Hex

  datatype Op = Read | Write | Transfer

  datatype Txn = Txn(op: Op, len: nat, tx: Option<string>, rxLen: Option<nat>)

  /** Everything the system decides during one execution: the three allocations, the ioctl, and the
      bytes the device clocks out. */
  datatype Io = Io(txAlloc: bool, rxAlloc: bool, dummyAlloc: bool, ioctlOk: bool, rx: seq<byte>)

  /** One `spi_ioc_transfer`. `rxLen` is 0 when nothing is read back. */
  datatype Segment = Segment(tx: seq<byte>, rxLen: nat, csChange: bool)

  const MAX_LEN := 4096

  predicate InBounds(t: Txn) {
    && 1 <= t.len <= MAX_LEN
    && (t.rxLen.Some? ==> 1 <= t.rxLen.value <= MAX_LEN)
  }

  function RxLen(t: Txn): nat {
    if t.op.Write? then 0
    else if t.rxLen.Some? then t.rxLen.value
    else t.len
  }

  /** The bytes of a text, as a raw copy sees them. */
  function RawBytes(s: string): seq<byte> {
    seq(|s|, i requires 0 <= i < |s| => s[i] as int % 256)
  }

  /** The outgoing buffer: zeros for a read; otherwise the decoded text, or its raw bytes when it has no
      hexadecimal digit, cut or zero-padded to the transaction length. */
  function Frame(t: Txn): (r: seq<byte>)
    ensures |r| == t.len
  {
    if t.op.Read? || t.tx.None? then Zeros(t.len)
    else if Hex.Decode(t.tx.value) == [] then Fit(RawBytes(t.tx.value), t.len)
    else Fit(Hex.Decode(t.tx.value), t.len)
  }

  /** The segments of one ioctl: a single one when nothing, or exactly as much as is sent, comes back;
      else a command segment with `cs_change` set, followed by a zero-filled read segment. */
  function Segments(tx: seq<byte>, rxLen: nat, keepCs: bool): seq<Segment> {
    if rxLen == 0 then [Segment(tx, 0, keepCs)]
    else if rxLen == |tx| then [Segment(tx, rxLen, false)]
    else [Segment(tx, 0, true), Segment(Zeros(rxLen), rxLen, keepCs)]
  }

  function Clocked(segments: seq<Segment>): seq<byte> {
    if segments == [] then [] else segments[0].tx + Clocked(segments[1..])
  }

  function ReadBack(segments: seq<Segment>): nat {
    if segments == [] then 0 else segments[0].rxLen + ReadBack(segments[1..])
  }

  /** The outgoing bytes come first on the wire and exactly `rxLen` bytes are read, after them or, when as
      many as are sent, along with them. `cs_change` is set on every segment but the last, and on the last
      one as configured, except that a transfer in both directions ignores the setting. */
  lemma SegmentsCarry(tx: seq<byte>, rxLen: nat, keepCs: bool)
    ensures var m := Segments(tx, rxLen, keepCs);
      && Clocked(m) == tx + (if NeedsDummy(|tx|, rxLen) then Zeros(rxLen) else [])
      && ReadBack(m) == rxLen
      && (forall k :: 0 <= k < |m| - 1 ==> m[k].csChange)
      && m[|m| - 1].csChange == (keepCs && (rxLen == 0 || rxLen != |tx|))
  {
    if NeedsDummy(|tx|, rxLen) {
      TwoSegments(Segment(tx, 0, true), Segment(Zeros(rxLen), rxLen, keepCs));
    } else {
      OneSegment(Segments(tx, rxLen, keepCs)[0]);
      assert tx + [] == tx;
    }
  }

  lemma OneSegment(a: Segment)
    ensures Clocked([a]) == a.tx && ReadBack([a]) == a.rxLen
  {
    assert [a][1..] == [];
    assert a.tx + [] == a.tx;
  }

  lemma TwoSegments(a: Segment, b: Segment)
    ensures Clocked([a, b]) == a.tx + b.tx && ReadBack([a, b]) == a.rxLen + b.rxLen
  {
    assert [a, b][1..] == [b];
    OneSegment(b);
  }

  predicate NeedsDummy(txLen: nat, rxLen: nat) {
    rxLen > 0 && rxLen != txLen
  }

  function Message(t: Txn, keepCs: bool): seq<Segment> {
    Segments(Frame(t), RxLen(t), keepCs)
  }

  /** The transaction gets as far as the ioctl. */
  predicate Issued(t: Txn, io: Io) {
    && InBounds(t) && io.txAlloc
    && (RxLen(t) > 0 ==> io.rxAlloc)
    && (NeedsDummy(t.len, RxLen(t)) ==> io.dummyAlloc)
  }

  predicate Succeeds(t: Txn, io: Io) {
    Issued(t, io) && io.ioctlOk
  }

  /** What `on_rx` is called with, if it is called. */
  function Delivered(t: Txn, io: Io): Option<seq<byte>> {
    if Succeeds(t, io) && RxLen(t) > 0 then Some(Fit(io.rx, RxLen(t))) else None
  }

  function Optional<T>(o: Option<T>): seq<T> {
    if o.Some? then [o.value] else []
  }

  /** The buffers one pass over the list hands to the callback, in order. */
  function PassDelivers(txns: seq<Txn>, ios: seq<Io>): seq<seq<byte>>
    requires |txns| == |ios|
  {
    if txns == [] then []
    else PassDelivers(txns[..|txns| - 1], ios[..|txns| - 1])
         + Optional(Delivered(txns[|txns| - 1], ios[|txns| - 1]))
  }

  function PassSends(txns: seq<Txn>, ios: seq<Io>, keepCs: bool): seq<seq<Segment>>
    requires |txns| == |ios|
  {
    if txns == [] then []
    else
      var n := |txns| - 1;
      PassSends(txns[..n], ios[..n], keepCs)
      + (if Issued(txns[n], ios[n]) then [Message(txns[n], keepCs)] else [])
  }

  /** An opened SPI runtime, with the device traffic and the callback invocations it causes. */
  class SpiRuntime {
    const transactions: seq<Txn>
    const keepCs: bool
    var fd: int
    var sent: seq<seq<Segment>>
    var received: seq<seq<byte>>

    constructor (transactions: seq<Txn>, keepCs: bool, fd: nat)
      ensures this.transactions == transactions && this.keepCs == keepCs && this.fd == fd
      ensures sent == [] && received == []
    {
      this.transactions, this.keepCs, this.fd := transactions, keepCs, fd;
      sent, received := [], [];
    }

    /** Allocates and fills the outgoing buffer. */
    method FillTx(t: Txn) returns (tx: array<byte>)
      ensures fresh(tx) && tx[..] == Frame(t)
    {
      tx := new byte[t.len](_ => 0);
      assert tx[..] == Zeros(t.len);
      if !t.op.Read? && t.tx.Some? {
        Encode(t.tx.value, tx);
      }
    }

    /** Decodes the text into a zeroed buffer, or copies it raw when it has no hexadecimal digit. */
    static method Encode(text: string, tx: array<byte>)
      requires tx[..] == Zeros(tx.Length)
      modifies tx
      ensures tx[..] == Fit(if Hex.Decode(text) == [] then RawBytes(text) else Hex.Decode(text), tx.Length)
    {
      ghost var was := tx[..];
      var rc, parsed := Hex.ParseHexBytes(text, tx, tx.Length);
      if rc != 0 {
        Filled(was, tx[..], Hex.Decode(text), parsed);
        CopyRaw(RawBytes(text), tx);
      } else {
        Filled(was, tx[..], Hex.Decode(text), parsed);
      }
    }

    static method CopyRaw(raw: seq<byte>, tx: array<byte>)
      requires tx[..] == Zeros(tx.Length)
      modifies tx
      ensures tx[..] == Fit(raw, tx.Length)
    {
      forall i | 0 <= i < Min(|raw|, tx.Length) {
        tx[i] := raw[i];
      }
    }

    /** Sends one buffer and, when `rxLen` is positive, reads that many bytes back. */
    method SendOnce(tx: array<byte>, rx: array<byte>, io: Io) returns (rc: int)
      requires tx != rx
      modifies this`sent, rx
      ensures rc == -1 || rc == 0
      ensures rc == 0 <==> fd >= 0 && (NeedsDummy(tx.Length, rx.Length) ==> io.dummyAlloc) && io.ioctlOk
      ensures sent == old(sent) +
        if fd >= 0 && (NeedsDummy(tx.Length, rx.Length) ==> io.dummyAlloc)
        then [Segments(tx[..], rx.Length, keepCs)] else []
      ensures rc == 0 ==> rx[..] == Fit(io.rx, rx.Length)
    {
      if fd < 0 {
        return -1;
      }
      ghost var out := tx[..];
      var message: seq<Segment>;
      if rx.Length == 0 {
        message := [Segment(tx[..], 0, keepCs)];
      } else if rx.Length == tx.Length {
        message := [Segment(tx[..], rx.Length, false)];
      } else {
        if !io.dummyAlloc {
          return -1;
        }
        var dummy := new byte[rx.Length](_ => 0);
        assert dummy[..] == Zeros(rx.Length);
        message := [Segment(tx[..], 0, true), Segment(dummy[..], rx.Length, keepCs)];
      }
      sent := sent + [message];
      if !io.ioctlOk {
        return -1;
      }
      var answer := Fit(io.rx, rx.Length);
      forall i | 0 <= i < rx.Length {
        rx[i] := answer[i];
      }
      assert tx[..] == out;
      rc := 0;
    }

    /** Runs one transaction and hands what it read to the callback. A runtime without a descriptor sends
        and reads nothing. */
    method ExecTransaction(t: Txn, io: Io) returns (rc: int)
      modifies this`sent, this`received
      ensures rc == if fd >= 0 && Succeeds(t, io) then 0 else -1
      ensures sent == old(sent) + (if fd >= 0 && Issued(t, io) then [Message(t, keepCs)] else [])
      ensures received == old(received) + (if fd >= 0 then Optional(Delivered(t, io)) else [])
    {
      if t.len == 0 || t.len > MAX_LEN {
        return -1;
      }
      if t.rxLen.Some? && (t.rxLen.value == 0 || t.rxLen.value > MAX_LEN) {
        return -1;
      }
      if !io.txAlloc {
        return -1;
      }
      var tx := FillTx(t);
      var rxLen := RxLen(t);
      if rxLen > 0 && !io.rxAlloc {
        return -1;
      }
      var rx := new byte[rxLen](_ => 0);
      rc := SendOnce(tx, rx, io);
      if rc == 0 && rxLen > 0 {
        received := received + [rx[..]];
      }
    }

    /** Runs the whole list once. A failing transaction is logged and the pass goes on. */
    method RunTransactions(ios: seq<Io>) returns (rc: int)
      requires |ios| == |transactions|
      modifies this`sent, this`received
      ensures rc == 0
      ensures sent == old(sent) + (if fd >= 0 then PassSends(transactions, ios, keepCs) else [])
      ensures received == old(received) + (if fd >= 0 then PassDelivers(transactions, ios) else [])
    {
      var i := 0;
      while i < |transactions|
        invariant 0 <= i <= |transactions|
        invariant Ran(ios, i, old(sent), old(received))
      {
        RunNext(ios, i, old(sent), old(received));
        i := i + 1;
      }
      assert transactions[..i] == transactions && ios[..i] == ios;
      rc := 0;
    }

    /** The first `i` transactions have been run, on top of what was sent and received before. */
    ghost predicate Ran(ios: seq<Io>, i: nat, sent0: seq<seq<Segment>>, received0: seq<seq<byte>>)
      requires i <= |ios| == |transactions|
      reads this
    {
      && sent == sent0 + (if fd >= 0 then PassSends(transactions[..i], ios[..i], keepCs) else [])
      && received == received0 + (if fd >= 0 then PassDelivers(transactions[..i], ios[..i]) else [])
    }

    method RunNext(ios: seq<Io>, i: nat, ghost sent0: seq<seq<Segment>>, ghost received0: seq<seq<byte>>)
      requires i < |ios| == |transactions| && Ran(ios, i, sent0, received0)
      modifies this`sent, this`received
      ensures Ran(ios, i + 1, sent0, received0)
    {
      var t, io := transactions[i], ios[i];
      PassNext(transactions, ios, i, keepCs);
      ConcatAssoc(sent0, PassSends(transactions[..i], ios[..i], keepCs),
                  if Issued(t, io) then [Message(t, keepCs)] else []);
      ConcatAssoc(received0, PassDelivers(transactions[..i], ios[..i]), Optional(Delivered(t, io)));
      var rc := ExecTransaction(t, io);
    }
  }

  /** A zeroed buffer with decoded bytes in front is the decoded bytes cut or padded. */
  lemma Filled(was: seq<byte>, o: seq<byte>, d: seq<byte>, n: nat)
    requires was == Zeros(|o|) && n == Min(|o|, |d|) && o[..n] == Take(d, |o|) && o[n..] == was[n..]
    ensures o == Fit(d, |o|)
  {
    assert o == o[..n] + o[n..];
  }

  lemma PassNext(txns: seq<Txn>, ios: seq<Io>, i: nat, keepCs: bool)
    requires |txns| == |ios| && i < |txns|
    ensures PassSends(txns[..i + 1], ios[..i + 1], keepCs) ==
      PassSends(txns[..i], ios[..i], keepCs) + (if Issued(txns[i], ios[i]) then [Message(txns[i], keepCs)] else [])
    ensures PassDelivers(txns[..i + 1], ios[..i + 1]) ==
      PassDelivers(txns[..i], ios[..i]) + Optional(Delivered(txns[i], ios[i]))
  {
    assert txns[..i + 1][..i] == txns[..i] && ios[..i + 1][..i] == ios[..i];
  }

  lemma {:induction false} PassDeliversConcat(a: seq<Txn>, ia: seq<Io>, b: seq<Txn>, ib: seq<Io>)
    requires |a| == |ia| && |b| == |ib|
    ensures PassDelivers(a + b, ia + ib) == PassDelivers(a, ia) + PassDelivers(b, ib)
    decreases |b|
  {
    if b == [] {
      NoMore(a, b);
      NoMore(ia, ib);
      assert PassDelivers(a, ia) + [] == PassDelivers(a, ia);
    } else {
      var n := |b| - 1;
      PassDeliversConcat(a, ia, b[..n], ib[..n]);
      LastMoved(a, b);
      LastMoved(ia, ib);
      OneMore(a + b[..n], ia + ib[..n], b[n], ib[n]);
      OneMore(b[..n], ib[..n], b[n], ib[n]);
      ConcatAssoc(PassDelivers(a, ia), PassDelivers(b[..n], ib[..n]), Optional(Delivered(b[n], ib[n])));
    }
  }

  lemma NoMore<T>(a: seq<T>, b: seq<T>)
    requires b == []
    ensures a + b == a
  {
  }

  lemma LastMoved<T>(a: seq<T>, b: seq<T>)
    requires b != []
    ensures a + b == (a + b[..|b| - 1]) + [b[|b| - 1]] && b == b[..|b| - 1] + [b[|b| - 1]]
  {
  }

  lemma OneMore(a: seq<Txn>, ia: seq<Io>, t: Txn, io: Io)
    requires |a| == |ia|
    ensures PassDelivers(a + [t], ia + [io]) == PassDelivers(a, ia) + Optional(Delivered(t, io))
  {
    assert (a + [t])[..|a|] == a && (ia + [io])[..|ia|] == ia;
  }

  /** A transaction that fails costs the pass its own buffer and nothing else: whatever the outcome at
      position `k`, what the transactions before and after it deliver is the same. */
  lemma FailureStaysLocal(txns: seq<Txn>, ios: seq<Io>, k: nat, io: Io)
    requires |txns| == |ios| && k < |txns|
    ensures PassDelivers(txns, ios[k := io]) ==
            PassDelivers(txns[..k], ios[..k]) + Optional(Delivered(txns[k], io))
            + PassDelivers(txns[k + 1..], ios[k + 1..])
  {
    var a, b := txns[..k], txns[k + 1..];
    var ia, ib := ios[..k], ios[k + 1..];
    Around(txns, k, txns[k]);
    Around(ios, k, io);
    PassDeliversConcat(a + [txns[k]], ia + [io], b, ib);
    PassDeliversConcat(a, ia, [txns[k]], [io]);
    OneDelivers(txns[k], io);
  }

  lemma Around<T>(s: seq<T>, k: nat, x: T)
    requires k < |s|
    ensures s[k := x] == (s[..k] + [x]) + s[k + 1..] && s[k := s[k]] == s
  {
  }

  lemma OneDelivers(t: Txn, io: Io)
    ensures PassDelivers([t], [io]) == Optional(Delivered(t, io))
  {
    assert [t][..0] == [] && [io][..0] == [];
    assert [] + Optional(Delivered(t, io)) == Optional(Delivered(t, io));
  }

  // ---- loading ----------------------------------------------------------------------------------

  predicate AllDigits(s: string) {
    forall i :: 0 <= i < |s| ==> IsDigit(s[i])
  }

  function DigitsValue(s: string): nat
    requires AllDigits(s)
  {
    if s == "" then 0
    else
      var last := s[|s| - 1];
      assert IsDigit(last);
      10 * DigitsValue(s[..|s| - 1]) + (last as int - '0' as int)
  }

  function SkipSpaces(s: string): string {
    if s != "" && IsSpace(s[0]) then SkipSpaces(s[1..]) else s
  }

  /** `strtol` in base 10, accepted when it stops at the end of the text: optional blanks, an optional
      sign, digits. The empty text is accepted too, as 0, because the scan stops where it starts. */
  function IntText(s: string): Option<int> {
    if s == "" then Some(0)
    else
      var t := SkipSpaces(s);
      var u := if t != "" && (t[0] == '+' || t[0] == '-') then t[1..] else t;
      if u != "" && AllDigits(u) then
        var v: int := DigitsValue(u);
        Some(if t[0] == '-' then -v else v)
      else None
  }

  function IntField(item: Node, key: string): Option<int> {
    match GetText(item, key)
    case Some(text) => IntText(text)
    case None => None
  }

  /** A field that is kept only when it lies in 1..4096. */
  function SizeField(item: Node, key: string): Option<nat> {
    match IntField(item, key)
    case Some(v) => if 1 <= v <= MAX_LEN then Some(v) else None
    case None => None
  }

  /** One item of the `transactions` list. An absent `op` leaves the zeroed field, which is `read`; an
      unknown one is a transfer; a bad `len` leaves 0. */
  function Load(item: Node): Txn {
    var op := match GetText(item, "op")
      case Some(s) => if s == "read" then Read else if s == "write" then Write else Transfer
      case None => Read;
    var len := match SizeField(item, "len") case Some(v) => v case None => 0;
    var tx := match GetText(item, "tx")
      case Some(s) => if Hex.TxPattern(s) then Some(s) else None
      case None => None;
    Txn(op, len, tx, SizeField(item, "rx_len"))
  }

  function LoadAll(items: seq<Node>): seq<Txn> {
    if items == [] then []
    else LoadAll(items[..|items| - 1])
         + (if items[|items| - 1].Mapping? then [Load(items[|items| - 1])] else [])
  }

  lemma LoadNext(items: seq<Node>, i: nat)
    requires i < |items|
    ensures LoadAll(items[..i + 1]) == LoadAll(items[..i]) + (if items[i].Mapping? then [Load(items[i])] else [])
  {
    assert items[..i + 1][..i] == items[..i];
  }

  method ParseTransactions(items: seq<Node>) returns (txns: array<Txn>, count: nat)
    ensures count <= txns.Length && txns[..count] == LoadAll(items)
  {
    txns := new Txn[|items|](_ => Txn(Read, 0, None, None));
    count := 0;
    var i := 0;
    while i < |items|
      invariant 0 <= i <= |items| && count <= i
      invariant txns[..count] == LoadAll(items[..i])
    {
      LoadNext(items, i);
      if items[i].Mapping? {
        txns[count] := Load(items[i]);
        count := count + 1;
      }
      i := i + 1;
    }
    assert items[..i] == items;
  }

  /** What every loaded transaction guarantees: its `tx` text decodes, so the raw-copy fallback is never
      taken and the frame is the decoded bytes cut or zero-padded to `len`; and the only way it can be
      out of bounds is a missing or unusable `len`. */
  lemma LoadedTransaction(item: Node)
    ensures var t := Load(item);
      && (t.tx.Some? ==> Hex.Decode(t.tx.value) != [])
      && (t.tx.Some? && !t.op.Read? ==> Frame(t) == Fit(Hex.Decode(t.tx.value), t.len))
      && (InBounds(t) <==> t.len != 0)
  {
    var t := Load(item);
    if t.tx.Some? {
      Hex.TxPatternDecodes(t.tx.value);
    }
  }

  lemma {:induction false} LoadedList(items: seq<Node>, k: nat)
    requires k < |LoadAll(items)|
    ensures exists i :: 0 <= i < |items| && LoadAll(items)[k] == Load(items[i])
  {
    var n := |items| - 1;
    if k < |LoadAll(items[..n])| {
      LoadedList(items[..n], k);
      var i :| 0 <= i < n && LoadAll(items[..n])[k] == Load(items[..n][i]);
      assert items[i] == items[..n][i];
    }
  }

  /** No loaded transaction reaches the raw-copy fallback. */
  lemma RawCopyUnreachable(items: seq<Node>)
    ensures forall t :: t in LoadAll(items) && t.tx.Some? && !t.op.Read? ==>
      Frame(t) == Fit(Hex.Decode(t.tx.value), t.len) && Hex.Decode(t.tx.value) != []
  {
    forall t | t in LoadAll(items) && t.tx.Some? && !t.op.Read?
      ensures Frame(t) == Fit(Hex.Decode(t.tx.value), t.len) && Hex.Decode(t.tx.value) != []
    {
      var k :| 0 <= k < |LoadAll(items)| && LoadAll(items)[k] == t;
      LoadedList(items, k);
      var i :| 0 <= i < |items| && LoadAll(items)[k] == Load(items[i]);
      LoadedTransaction(items[i]);
    }
  }
}
