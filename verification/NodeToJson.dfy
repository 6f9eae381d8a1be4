/** The printer that turns a document tree into JSON. */
module NodeToJson {
  import opened Basics
  import opened Yaml
  import JsonText

  // ---- scalars: what `strtod` accepts -----------------------------------------------------------------

  function DropSpace(s: string): (r: string)
    ensures |r| <= |s| && (r == "" || !IsSpace(r[0]))
  {
    if s != "" && IsSpace(s[0]) then DropSpace(s[1..]) else s
  }

  predicate IsDigitOf(c: char, hex: bool) {
    IsDigit(c) || (hex && ('a' <= c <= 'f' || 'A' <= c <= 'F'))
  }

  function Run(s: string, hex: bool): (n: nat)
    ensures n <= |s|
  {
    if s != "" && IsDigitOf(s[0], hex) then 1 + Run(s[1..], hex) else 0
  }

  /** An exponent mark, an optional sign and decimal digits, to the end. */
  predicate IsExponent(s: string, hex: bool) {
    && |s| >= 2
    && (if hex then s[0] == 'p' || s[0] == 'P' else s[0] == 'e' || s[0] == 'E')
    && var d := if s[1] == '+' || s[1] == '-' then s[2..] else s[1..];
       d != "" && Run(d, false) == |d|
  }

  /** Digits with an optional point among or around them, then an optional exponent, to the end. */
  predicate IsFloat(s: string, hex: bool) {
    var a := Run(s, hex);
    var t := s[a..];
    var point := t != "" && t[0] == '.';
    var f := if point then Run(t[1..], hex) else 0;
    var u := if point then t[1..][f..] else t;
    a + f > 0 && (u == "" || IsExponent(u, hex))
  }

  function Lower(s: string): string {
    seq(|s|, i requires 0 <= i < |s| =>
      if 'A' <= s[i] <= 'Z' then (s[i] as int + 32) as char else s[i])
  }

  predicate IsNan(s: string) {
    |s| >= 3 && Lower(s[..3]) == "nan" &&
    (|s| == 3 || (|s| >= 5 && s[3] == '(' && s[|s| - 1] == ')' &&
                  forall i :: 4 <= i < |s| - 1 ==> IsDigitOf(s[i], false) || s[i] == '_'
                                                   || 'a' <= s[i] <= 'z' || 'A' <= s[i] <= 'Z'))
  }

  /** A number as `strtod` reads it, without the space before it: decimal or hexadecimal, infinite or not a
      number. */
  predicate IsStrtod(s: string) {
    var u := if s != "" && (s[0] == '+' || s[0] == '-') then s[1..] else s;
    || IsFloat(u, false)
    || (|u| >= 2 && (u[..2] == "0x" || u[..2] == "0X") && IsFloat(u[2..], true))
    || Lower(u) == "inf" || Lower(u) == "infinity"
    || IsNan(u)
  }

  /** `strtod` stops at the end of the text: it is all one number, or there is nothing to read. */
  predicate StrtodTakesAll(s: string) {
    s == "" || IsStrtod(DropSpace(s))
  }

  predicate IsBool(s: string) {
    s == "true" || s == "false"
  }

  // ---- the printed text -------------------------------------------------------------------------------

  function EscapeChar(c: char): string {
    if c == '"' || c == '\\' then ['\\', c] else if c == '\n' then "\\n" else [c]
  }

  function Escape(s: string): string {
    if s == "" then "" else EscapeChar(s[0]) + Escape(s[1..])
  }

  function Quote(s: string): string {
    "\"" + (Escape(s) + "\"")
  }

  /** The JSON text of a tree. A pair whose key is not a scalar is left out. */
  function Print(n: Node): string
    decreases n
  {
    match n
    case Scalar(text) => if IsBool(text) || StrtodTakesAll(text) then text else Quote(text)
    case Sequence(_) => "[" + (PrintItems(n, 0) + "]")
    case Mapping(_) => "{" + (PrintPairs(n, 0, true) + "}")
    case _ => "null"
  }

  /** The items from `i` on, each but item 0 with a comma before it. */
  function PrintItems(n: Node, i: nat): string
    requires n.Sequence? && i <= |n.items|
    decreases n, |n.items| - i
  {
    if i == |n.items| then ""
    else (if i > 0 then "," else "") + (Print(n.items[i]) + PrintItems(n, i + 1))
  }

  function PrintPair(n: Node, i: nat): string
    requires n.Mapping? && i < |n.pairs| && n.pairs[i].0.Scalar?
    decreases n, 0
  {
    Quote(n.pairs[i].0.text) + (":" + Print(n.pairs[i].1))
  }

  /** The pairs from `i` on; `first` is whether none has been printed yet. */
  function PrintPairs(n: Node, i: nat, first: bool): string
    requires n.Mapping? && i <= |n.pairs|
    decreases n, |n.pairs| - i + 1
  {
    if i == |n.pairs| then ""
    else if !n.pairs[i].0.Scalar? then PrintPairs(n, i + 1, first)
    else (if first then "" else ",") + (PrintPair(n, i) + PrintPairs(n, i + 1, false))
  }

  // ---- the printer --------------------------------------------------------------------------------------

  /** The stream the printer writes to. */
  class Out {
    var text: string

    constructor ()
      ensures text == ""
    {
      text := "";
    }

    method Put(s: string)
      modifies this
      ensures text == old(text) + s
    {
      text := text + s;
    }
  }

  /** Keys that are scalars have text; the printer does not test for it. */
  predicate KeysHaveText(n: Node)
    decreases n
  {
    match n
    case Sequence(items) => forall i :: 0 <= i < |items| ==> KeysHaveText(items[i])
    case Mapping(pairs) =>
      forall i :: 0 <= i < |pairs| ==> !pairs[i].0.NullScalar? && KeysHaveText(pairs[i].1)
    case _ => true
  }

  method JsonEscape(s: string, out: Out)
    modifies out
    ensures out.text == old(out.text) + Escape(s)
  {
    var p := 0;
    while p < |s|
      invariant 0 <= p <= |s|
      invariant out.text + Escape(s[p..]) == old(out.text) + Escape(s)
    {
      ConcatAssoc(out.text, EscapeChar(s[p]), Escape(s[p + 1..]));
      assert s[p..][1..] == s[p + 1..];
      if s[p] == '"' || s[p] == '\\' {
        out.Put(['\\', s[p]]);
      } else if s[p] == '\n' {
        out.Put("\\n");
      } else {
        out.Put([s[p]]);
      }
      p := p + 1;
    }
    assert s[p..] == "";
  }

  method PutQuoted(s: string, out: Out)
    modifies out
    ensures out.text == old(out.text) + Quote(s)
  {
    ghost var was := out.text;
    out.Put("\"");
    JsonEscape(s, out);
    out.Put("\"");
    ConcatAssoc(was, "\"", Escape(s));
    ConcatAssoc(was, "\"" + Escape(s), "\"");
    ConcatAssoc("\"", Escape(s), "\"");
  }

  method PutScalar(text: string, out: Out)
    modifies out
    ensures out.text == old(out.text) + Print(Scalar(text))
  {
    if IsBool(text) {
      out.Put(text);
    } else if StrtodTakesAll(text) {
      out.Put(text);
    } else {
      PutQuoted(text, out);
    }
  }

  /** Prints the tree to the stream, behind what is there. */
  method Write(n: Node, out: Out)
    requires KeysHaveText(n)
    modifies out
    ensures out.text == old(out.text) + Print(n)
    decreases n
  {
    match n
    case Scalar(text) => PutScalar(text, out);
    case Sequence(_) => WriteItems(n, out);
    case Mapping(_) => WritePairs(n, out);
    case _ => out.Put("null");
  }

  method WriteItems(n: Node, out: Out)
    requires n.Sequence? && KeysHaveText(n)
    modifies out
    ensures out.text == old(out.text) + Print(n)
    decreases n, 0, 2
  {
    ghost var was := out.text;
    out.Put("[");
    WriteAll(n, out);
    out.Put("]");
    Brackets(was, PrintItems(n, 0));
  }

  method WriteAll(n: Node, out: Out)
    requires n.Sequence? && KeysHaveText(n)
    modifies out
    ensures out.text == old(out.text) + PrintItems(n, 0)
    decreases n, 0, 1
  {
    ghost var whole := out.text + PrintItems(n, 0);
    var first := true;
    var i := 0;
    while i < |n.items|
      invariant 0 <= i <= |n.items| && first == (i == 0)
      invariant ItemsAhead(n, i, out.text, whole)
    {
      WriteItem(n, i, first, out, whole);
      first := false;
      i := i + 1;
    }
    NothingLeft(n, out.text);
  }

  /** The items from `i` on are all that is missing. */
  ghost predicate ItemsAhead(n: Node, i: nat, text: string, whole: string) {
    n.Sequence? && i <= |n.items| && text + PrintItems(n, i) == whole
  }

  lemma NothingLeft(n: Node, text: string)
    requires n.Sequence?
    ensures text + PrintItems(n, |n.items|) == text
  {
    assert text + "" == text;
  }

  lemma Brackets(was: string, s: string)
    ensures was + "[" + s + "]" == was + ("[" + (s + "]"))
  {
    ConcatAssoc(was, "[", s);
    ConcatAssoc(was, "[" + s, "]");
    ConcatAssoc("[", s, "]");
  }

  method WriteItem(n: Node, i: nat, first: bool, out: Out, ghost whole: string)
    requires ItemsAhead(n, i, out.text, whole) && i < |n.items| && KeysHaveText(n) && first == (i == 0)
    modifies out
    ensures ItemsAhead(n, i + 1, out.text, whole)
    decreases n, 0, 0
  {
    ghost var before := out.text;
    if !first {
      out.Put(",");
    }
    Write(n.items[i], out);
    Item(before, n, i);
  }

  /** One more item. */
  lemma Item(before: string, n: Node, i: nat)
    requires n.Sequence? && i < |n.items|
    ensures (if i == 0 then before else before + ",") + Print(n.items[i]) + PrintItems(n, i + 1)
         == before + PrintItems(n, i)
  {
    var comma := if i > 0 then "," else "";
    ConcatAssoc(before + comma, Print(n.items[i]), PrintItems(n, i + 1));
    ConcatAssoc(before, comma, Print(n.items[i]) + PrintItems(n, i + 1));
    assert before + "" == before;
  }

  method WritePairs(n: Node, out: Out)
    requires n.Mapping? && KeysHaveText(n)
    modifies out
    ensures out.text == old(out.text) + Print(n)
    decreases n, 0
  {
    ghost var was := out.text;
    out.Put("{");
    var first := true;
    var i := 0;
    while i < |n.pairs|
      invariant 0 <= i <= |n.pairs|
      invariant out.text + PrintPairs(n, i, first) == was + "{" + PrintPairs(n, 0, true)
    {
      if n.pairs[i].0.Scalar? {
        WritePair(n, i, first, out);
        first := false;
      }
      i := i + 1;
    }
    out.Put("}");
    Braces(was, PrintPairs(n, 0, true));
  }

  lemma Braces(was: string, s: string)
    ensures was + "{" + s + "}" == was + ("{" + (s + "}"))
  {
    ConcatAssoc(was, "{", s);
    ConcatAssoc(was, "{" + s, "}");
    ConcatAssoc("{", s, "}");
  }

  method WritePair(n: Node, i: nat, first: bool, out: Out)
    requires n.Mapping? && i < |n.pairs| && n.pairs[i].0.Scalar? && KeysHaveText(n)
    modifies out
    ensures out.text + PrintPairs(n, i + 1, false) == old(out.text) + PrintPairs(n, i, first)
    decreases n, 0, 0
  {
    ghost var before := out.text;
    if !first {
      out.Put(",");
    }
    ghost var was := out.text;
    PutQuoted(n.pairs[i].0.text, out);
    out.Put(":");
    Write(n.pairs[i].1, out);
    ConcatAssoc(was + Quote(n.pairs[i].0.text), ":", Print(n.pairs[i].1));
    ConcatAssoc(was, Quote(n.pairs[i].0.text), ":" + Print(n.pairs[i].1));
    Pair(before, n, i, first);
  }

  /** One more pair. */
  lemma Pair(before: string, n: Node, i: nat, first: bool)
    requires n.Mapping? && i < |n.pairs| && n.pairs[i].0.Scalar?
    ensures (if first then before else before + ",") + PrintPair(n, i) + PrintPairs(n, i + 1, false)
         == before + PrintPairs(n, i, first)
  {
    var comma := if first then "" else ",";
    ConcatAssoc(before + comma, PrintPair(n, i), PrintPairs(n, i + 1, false));
    ConcatAssoc(before, comma, PrintPair(n, i) + PrintPairs(n, i + 1, false));
    assert before + "" == before;
  }

  /** The whole text of a tree, when the temporary file can be made and read back. */
  method Serialize(n: Node, fileOk: bool) returns (r: Option<string>)
    requires KeysHaveText(n)
    ensures r == if fileOk then Some(Print(n)) else None
  {
    if !fileOk {
      return None;
    }
    var mem := new Out();
    Write(n, mem);
    assert "" + Print(n) == Print(n);
    return Some(mem.text);
  }
}
