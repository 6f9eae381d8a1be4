/** What the items of a `transactions` list mean, from their texts to what goes out and what comes back. */
module SpiItems {
  import opened Basics
  import opened Yaml
  import opened SpiTransaction
  import Hex

  // ---- numbers as texts -----------------------------------------------------------------------------------

  function DigitChar(v: nat): char
    requires v < 10
  {
    ('0' as int + v) as char
  }

  /** A number as it is usually written. */
  function Decimal(n: nat): (s: string)
    ensures s != ""
  {
    if n < 10 then [DigitChar(n)] else Decimal(n / 10) + [DigitChar(n % 10)]
  }

  lemma {:induction false} DecimalValue(n: nat)
    ensures AllDigits(Decimal(n))
    ensures DigitsValue(Decimal(n)) == n
  {
    if n >= 10 {
      DecimalValue(n / 10);
      assert Decimal(n)[..|Decimal(n)| - 1] == Decimal(n / 10);
    } else {
      assert Decimal(n)[..0] == "";
    }
  }

  /** A number is read as itself; behind blanks and a plus sign too, and as its negative behind a minus. */
  lemma DecimalIsRead(n: nat, blanks: string)
    requires forall i :: 0 <= i < |blanks| ==> IsSpace(blanks[i])
    ensures IntText(Decimal(n)) == Some(n)
    ensures IntText(blanks + Decimal(n)) == Some(n)
    ensures IntText(blanks + ("+" + Decimal(n))) == Some(n)
    ensures IntText(blanks + ("-" + Decimal(n))) == Some(0 - n as int)
  {
    DecimalValue(n);
    assert IsDigit(Decimal(n)[0]);
    BlanksSkipped(blanks, Decimal(n));
    BlanksSkipped(blanks, "+" + Decimal(n));
    BlanksSkipped(blanks, "-" + Decimal(n));
    BlanksSkipped("", Decimal(n));
    assert "" + Decimal(n) == Decimal(n);
    assert ("+" + Decimal(n))[1..] == Decimal(n) && ("-" + Decimal(n))[1..] == Decimal(n);
  }

  /** A text that goes on behind its digits is no number. */
  lemma RestIsRefused(n: nat, rest: string)
    requires rest != "" && !IsDigit(rest[|rest| - 1])
    ensures IntText(Decimal(n) + rest) == None
  {
    var s := Decimal(n) + rest;
    DecimalValue(n);
    assert IsDigit(s[0]) by {
      assert s[0] == Decimal(n)[0];
    }
    NotAllDigits(s);
  }

  lemma NotAllDigits(s: string)
    requires s != "" && IsDigit(s[0]) && !IsDigit(s[|s| - 1])
    ensures IntText(s) == None
  {
    assert SkipSpaces(s) == s && s[0] != '+' && s[0] != '-';
    assert !AllDigits(s);
  }

  lemma {:induction false} BlanksSkipped(blanks: string, s: string)
    requires forall i :: 0 <= i < |blanks| ==> IsSpace(blanks[i])
    requires s != "" && !IsSpace(s[0])
    ensures SkipSpaces(blanks + s) == s
    decreases |blanks|
  {
    if blanks == "" {
      assert blanks + s == s;
    } else {
      assert (blanks + s)[1..] == blanks[1..] + s;
      BlanksSkipped(blanks[1..], s);
    }
  }

  /** A size is kept if and only if it lies in 1..4096. */
  lemma SizeIsKept(item: Node, key: string, n: nat)
    requires GetText(item, key) == Some(Decimal(n))
    ensures SizeField(item, key) == if 1 <= n <= 4096 then Some(n) else None
  {
    DecimalIsRead(n, "");
  }

  // ---- items --------------------------------------------------------------------------------------------------

  /** The item's texts: its `op`, a length of `n`, its `tx`, and how many bytes to read back. */
  predicate Says(item: Node, op: Option<string>, n: nat, tx: Option<string>, back: Option<nat>) {
    && item.Mapping? && GetText(item, "op") == op && GetText(item, "len") == Some(Decimal(n))
    && GetText(item, "tx") == tx && (tx.Some? ==> Hex.TxPattern(tx.value))
    && GetText(item, "rx_len") == (if back.Some? then Some(Decimal(back.value)) else None)
    && 1 <= n <= 4096 && (back.Some? ==> 1 <= back.value <= 4096)
  }

  /** The allocations a transaction of `n` bytes out and `back` bytes in needs. */
  predicate Enough(io: Io, n: nat, back: nat) {
    io.txAlloc && (back > 0 ==> io.rxAlloc) && (back > 0 && back != n ==> io.dummyAlloc)
  }

  /** The transaction sends `out` and reads `back` bytes, if there is memory; and it hands these over if the
      transfer succeeds too. */
  predicate Does(t: Txn, keepCs: bool, out: seq<byte>, back: nat, io: Io) {
    && Carries(Message(t, keepCs), out, back)
    && (Issued(t, io) <==> Enough(io, |out|, back))
    && Delivered(t, io) == (if back > 0 && Enough(io, |out|, back) && io.ioctlOk then Some(Fit(io.rx, back)) else None)
  }

  /** On the wire `out` comes first, and `back` bytes are read: along with it when they are as many, behind it
      otherwise. */
  predicate Carries(m: seq<Segment>, out: seq<byte>, back: nat) {
    ReadBack(m) == back && Clocked(m) == out + (if back == 0 || back == |out| then [] else Zeros(back))
  }

  lemma OneLoaded(item: Node)
    requires item.Mapping?
    ensures LoadAll([item]) == [Load(item)]
  {
    assert [item][..0] == [];
  }

  /** What an item of which `n` bytes go out and `back` come back does. */
  lemma ItemCarries(item: Node, op: Option<string>, n: nat, tx: Option<string>, back: Option<nat>)
    requires Says(item, op, n, tx, back)
    ensures var t := Load(item);
      && InBounds(t) && t.len == n && t.tx == tx
      && RxLen(t) == if t.op.Write? then 0 else if back.Some? then back.value else n
  {
    SizeIsKept(item, "len", n);
    if back.Some? {
      SizeIsKept(item, "rx_len", back.value);
    }
  }

  /** An item that reads, or has no `op`, sends zeros, and reads as many bytes as it says, or as it sends when it
      does not say. */
  lemma ReadItem(item: Node, op: Option<string>, n: nat, tx: Option<string>, back: Option<nat>, keepCs: bool, io: Io)
    requires Says(item, op, n, tx, back) && (op == None || op == Some("read"))
    ensures |LoadAll([item])| == 1
    ensures Does(LoadAll([item])[0], keepCs, Zeros(n), if back.Some? then back.value else n, io)
  {
    OneLoaded(item);
    ItemCarries(item, op, n, tx, back);
    SegmentsCarry(Zeros(n), RxLen(Load(item)), keepCs);
  }

  /** An item that writes sends its `tx` decoded, cut or zero-padded to its length, and reads nothing. */
  lemma WriteItem(item: Node, n: nat, tx: string, back: Option<nat>, keepCs: bool, io: Io)
    requires Says(item, Some("write"), n, Some(tx), back)
    ensures |LoadAll([item])| == 1
    ensures Does(LoadAll([item])[0], keepCs, Fit(Hex.Decode(tx), n), 0, io)
  {
    OneLoaded(item);
    ItemCarries(item, Some("write"), n, Some(tx), back);
    LoadedTransaction(item);
    SegmentsCarry(Fit(Hex.Decode(tx), n), 0, keepCs);
  }

  /** An item with any other `op` sends its `tx` and reads as one that reads. */
  lemma TransferItem(item: Node, op: string, n: nat, tx: string, back: Option<nat>, keepCs: bool, io: Io)
    requires Says(item, Some(op), n, Some(tx), back) && op != "read" && op != "write"
    ensures |LoadAll([item])| == 1
    ensures Does(LoadAll([item])[0], keepCs, Fit(Hex.Decode(tx), n), if back.Some? then back.value else n, io)
  {
    OneLoaded(item);
    ItemCarries(item, Some(op), n, Some(tx), back);
    LoadedTransaction(item);
    SegmentsCarry(Fit(Hex.Decode(tx), n), RxLen(Load(item)), keepCs);
  }

  /** An item without `tx`, or with one that is no hexadecimal text, sends zeros whatever its `op`. */
  lemma NoTextSendsZeros(item: Node, keepCs: bool)
    requires item.Mapping? && (GetText(item, "tx").Some? ==> !Hex.TxPattern(GetText(item, "tx").value))
    ensures |LoadAll([item])| == 1
    ensures var t := LoadAll([item])[0]; Zeros(t.len) <= Clocked(Message(t, keepCs))
  {
    OneLoaded(item);
    var t := Load(item);
    SegmentsCarry(Zeros(t.len), RxLen(t), keepCs);
  }

  /** With memory for it, an item is sent if and only if its length is a number in 1..4096. */
  lemma SentWhenSized(item: Node, io: Io)
    requires item.Mapping? && io.txAlloc && io.rxAlloc && io.dummyAlloc
    ensures |LoadAll([item])| == 1
    ensures Issued(LoadAll([item])[0], io) <==>
      match GetText(item, "len")
      case None => false
      case Some(text) => IntText(text).Some? && 1 <= IntText(text).value <= 4096
  {
    OneLoaded(item);
  }

  // ---- the shipped item -----------------------------------------------------------------------------------------

  function Pair(key: string, text: string): (Node, Node) {
    (Scalar(key), Scalar(text))
  }

  function Shipped(): Node {
    Mapping([Pair("op", "transfer"), Pair("len", "2"), Pair("tx", "0x01FF"), Pair("rx_len", "2")])
  }

  lemma ShippedTexts()
    ensures GetText(Shipped(), "op") == Some("transfer") && GetText(Shipped(), "len") == Some("2")
    ensures GetText(Shipped(), "tx") == Some("0x01FF") && GetText(Shipped(), "rx_len") == Some("2")
  {
    var pairs := Shipped().pairs;
    FirstAt(pairs, 0);
    FirstAt(pairs, 1);
    FirstAt(pairs, 2);
    FirstAt(pairs, 3);
  }

  /** It sends 1 and 255, and delivers the two bytes clocked in along with them. */
  lemma ShippedItem(keepCs: bool, io: Io)
    ensures |LoadAll([Shipped()])| == 1
    ensures Does(LoadAll([Shipped()])[0], keepCs, [1, 255], 2, io)
  {
    ShippedTexts();
    ShippedSays(Shipped());
    TransferItem(Shipped(), "transfer", 2, "0x01FF", Some(2), keepCs, io);
    ShippedFrame();
  }

  lemma ShippedSays(item: Node)
    requires item.Mapping? && GetText(item, "op") == Some("transfer") && GetText(item, "len") == Some("2")
    requires GetText(item, "tx") == Some("0x01FF") && GetText(item, "rx_len") == Some("2")
    ensures Says(item, Some("transfer"), 2, Some("0x01FF"), Some(2))
  {
    assert Decimal(2) == "2";
    assert "0x01FF"[2..] == "01FF" && "0x01FF"[..2] == "0x";
  }

  lemma ShippedFrame()
    ensures Fit(Hex.Decode("0x01FF"), 2) == [1, 255]
  {
    assert Hex.Spells("01FF", [1, 255]);
    Hex.SpelledDecodes("01FF", [1, 255]);
    assert ['0', 'x'] + "01FF" == "0x01FF";
    assert [1, 255][..2] == [1, 255] && Zeros(0) == [];
  }
}
