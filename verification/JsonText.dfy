/** A reader for JSON texts, following sections 2 to 7 of RFC 8259. Numbers are kept as their text.
    An escape of a surrogate code unit is refused. */
module JsonText {
  import opened Basics
  import Hex

  datatype Json =
    | Null
    | Bool(b: bool)
    | Number(token: string)
    | Text(text: string)
    | Array(items: seq<Json>)
    | Object(members: seq<(string, Json)>)

  // ---- section 2: white space ------------------------------------------------------------------------

  predicate IsWs(c: char) {
    c == ' ' || c == '\t' || c == '\n' || c == '\r'
  }

  function SkipWs(s: string): (r: string)
    ensures |r| <= |s| && (r == "" || !IsWs(r[0]))
  {
    if s != "" && IsWs(s[0]) then SkipWs(s[1..]) else s
  }

  // ---- section 6: numbers ----------------------------------------------------------------------------

  /** The length of the leading run of digits. */
  function Span(s: string): (n: nat)
    ensures n <= |s|
  {
    if s != "" && IsDigit(s[0]) then 1 + Span(s[1..]) else 0
  }

  function SignLen(s: string): (n: nat)
    ensures n <= |s|
  {
    if s != "" && s[0] == '-' then 1 else 0
  }

  /** `0`, or digits that do not begin with `0`. */
  function IntLen(s: string): (n: nat)
    ensures n <= |s|
  {
    if s != "" && s[0] == '0' then 1 else Span(s)
  }

  function FracLen(s: string): (n: nat)
    ensures n <= |s|
  {
    if s != "" && s[0] == '.' && Span(s[1..]) > 0 then 1 + Span(s[1..]) else 0
  }

  predicate IsExpMark(c: char) {
    c == 'e' || c == 'E'
  }

  function ExpSignLen(s: string): (n: nat)
    ensures n <= |s|
  {
    if s != "" && (s[0] == '+' || s[0] == '-') then 1 else 0
  }

  function ExpLen(s: string): (n: nat)
    ensures n <= |s|
  {
    if s == "" || !IsExpMark(s[0]) then 0
    else
      var k := ExpSignLen(s[1..]);
      var d := Span(s[1..][k..]);
      if d > 0 then 1 + k + d else 0
  }

  /** Fraction and exponent. */
  function TailLen(s: string): (n: nat)
    ensures n <= |s|
  {
    FracLen(s) + ExpLen(s[FracLen(s)..])
  }

  function UnsignedLen(s: string): (n: nat)
    ensures n <= |s|
  {
    var b := IntLen(s);
    if b == 0 then 0 else b + TailLen(s[b..])
  }

  /** The length of the number `s` begins with, or 0. */
  function NumberLen(s: string): (n: nat)
    ensures n <= |s|
  {
    var a := SignLen(s);
    var u := UnsignedLen(s[a..]);
    if u == 0 then 0 else a + u
  }

  predicate IsNumber(s: string) {
    s != "" && NumberLen(s) == |s|
  }

  // ---- section 7: strings ----------------------------------------------------------------------------

  function HexQuad(s: string): Option<char>
    requires |s| >= 4
  {
    if !(Hex.IsHex(s[0]) && Hex.IsHex(s[1]) && Hex.IsHex(s[2]) && Hex.IsHex(s[3])) then None
    else
      var v := ((Hex.HexVal(s[0]) * 16 + Hex.HexVal(s[1])) * 16 + Hex.HexVal(s[2])) * 16 + Hex.HexVal(s[3]);
      if v < 0xD800 || 0xE000 <= v < 0x10000 then Some(v as char) else None
  }

  /** The character an escape stands for and the length of the escape, which begins with a backslash. */
  function Unescape(s: string): (r: Option<(char, nat)>)
    requires s != ""
    ensures r.Some? ==> 0 < r.value.1 <= |s|
  {
    if |s| < 2 then None
    else
      match s[1]
      case '"' => Some(('"', 2))
      case '\\' => Some(('\\', 2))
      case '/' => Some(('/', 2))
      case 'b' => Some(('\U{8}', 2))
      case 'f' => Some(('\U{C}', 2))
      case 'n' => Some(('\n', 2))
      case 'r' => Some(('\r', 2))
      case 't' => Some(('\t', 2))
      case 'u' => if |s| < 6 || HexQuad(s[2..]).None? then None else Some((HexQuad(s[2..]).value, 6))
      case _ => None
  }

  /** A string's characters and what follows its closing quotation mark. */
  function ParseString(s: string): (r: Option<(string, string)>)
    ensures r.Some? ==> |r.value.1| < |s|
    decreases |s|
  {
    if s == "" then None
    else if s[0] == '"' then Some(("", s[1..]))
    else
      var c := if s[0] == '\\' then Unescape(s) else if s[0] < ' ' then None else Some((s[0], 1));
      if c.None? then None
      else
        var r := ParseString(s[c.value.1..]);
        if r.None? then None else Some(([c.value.0] + r.value.0, r.value.1))
  }

  // ---- sections 3 to 5: values, objects, arrays ------------------------------------------------------

  function Literal(s: string, word: string, v: Json): (r: Option<(Json, string)>)
    requires word != ""
    ensures r.Some? ==> |r.value.1| < |s|
  {
    if word <= s then Some((v, s[|word|..])) else None
  }

  /** One of the three literal names, or a number. */
  function ParseAtom(s: string): (r: Option<(Json, string)>)
    ensures r.Some? ==> |r.value.1| < |s|
  {
    if s == "" then None
    else if s[0] == 't' then Literal(s, "true", Bool(true))
    else if s[0] == 'f' then Literal(s, "false", Bool(false))
    else if s[0] == 'n' then Literal(s, "null", Null)
    else
      var n := NumberLen(s);
      if n == 0 then None else Some((Number(s[..n]), s[n..]))
  }

  /** A value, after optional white space, and what follows it. */
  function ParseValue(s: string): (r: Option<(Json, string)>)
    ensures r.Some? ==> |r.value.1| < |s|
    decreases |s|, 0
  {
    var t := SkipWs(s);
    if t == "" then None
    else
      match t[0]
      case '"' =>
        var r := ParseString(t[1..]);
        if r.None? then None else Some((Text(r.value.0), r.value.1))
      case '[' =>
        var r := ParseElems(t[1..], true);
        if r.None? then None else Some((Array(r.value.0), r.value.1))
      case '{' =>
        var r := ParseMembers(t[1..], true);
        if r.None? then None else Some((Object(r.value.0), r.value.1))
      case _ => ParseAtom(t)
  }

  /** The elements up to the closing bracket; all but the first have a comma before them. */
  function ParseElems(s: string, first: bool): (r: Option<(seq<Json>, string)>)
    ensures r.Some? ==> |r.value.1| < |s|
    decreases |s|, 1
  {
    var t := SkipWs(s);
    if t == "" then None
    else if t[0] == ']' then Some(([], t[1..]))
    else if !first && t[0] != ',' then None
    else
      var v := ParseValue(if first then t else t[1..]);
      if v.None? then None
      else
        var more := ParseElems(v.value.1, false);
        if more.None? then None else Some(([v.value.0] + more.value.0, more.value.1))
  }

  /** The members up to the closing brace. */
  function ParseMembers(s: string, first: bool): (r: Option<(seq<(string, Json)>, string)>)
    ensures r.Some? ==> |r.value.1| < |s|
    decreases |s|, 1
  {
    var t := SkipWs(s);
    if t == "" then None
    else if t[0] == '}' then Some(([], t[1..]))
    else if !first && t[0] != ',' then None
    else
      var m := ParseMember(if first then t else t[1..]);
      if m.None? then None
      else
        var more := ParseMembers(m.value.1, false);
        if more.None? then None else Some(([m.value.0] + more.value.0, more.value.1))
  }

  /** A name, a colon and a value. */
  function ParseMember(s: string): (r: Option<((string, Json), string)>)
    ensures r.Some? ==> |r.value.1| < |s|
    decreases |s|, 0
  {
    var t := SkipWs(s);
    if t == "" || t[0] != '"' then None
    else
      var k := ParseString(t[1..]);
      if k.None? then None
      else
        var u := SkipWs(k.value.1);
        if u == "" || u[0] != ':' then None
        else
          var v := ParseValue(u[1..]);
          if v.None? then None else Some(((k.value.0, v.value.0), v.value.1))
  }

  /** A whole JSON text. */
  function Parse(s: string): Option<Json> {
    var r := ParseValue(s);
    if r.Some? && SkipWs(r.value.1) == "" then Some(r.value.0) else None
  }

  // ---- what the reader can produce -------------------------------------------------------------------

  /** Every number in the value is one of the grammar. */
  predicate NumbersOk(j: Json)
    decreases j
  {
    match j
    case Number(t) => IsNumber(t)
    case Array(items) => forall i :: 0 <= i < |items| ==> NumbersOk(items[i])
    case Object(ms) => forall i :: 0 <= i < |ms| ==> NumbersOk(ms[i].1)
    case _ => true
  }

  lemma {:induction false} SpanPrefix(s: string, n: nat)
    requires Span(s) <= n <= |s|
    ensures Span(s[..n]) == Span(s)
    decreases |s|
  {
    if s != "" && IsDigit(s[0]) {
      SpanPrefix(s[1..], n - 1);
      assert s[..n][1..] == s[1..][..n - 1];
    }
  }

  lemma FracPrefix(s: string, n: nat)
    requires FracLen(s) <= n <= |s|
    ensures FracLen(s[..n]) == FracLen(s)
  {
    if n > 0 && s[0] == '.' {
      assert s[..n][1..] == s[1..][..n - 1];
      if Span(s[1..]) > 0 {
        SpanPrefix(s[1..], n - 1);
      }
    }
  }

  lemma ExpPrefix(s: string)
    ensures ExpLen(s[..ExpLen(s)]) == ExpLen(s)
  {
    var n := ExpLen(s);
    if n > 0 {
      var k := ExpSignLen(s[1..]);
      assert s[..n][1..] == s[1..][..n - 1];
      assert s[..n][1..][k..] == s[1..][k..][..n - 1 - k];
      SpanPrefix(s[1..][k..], n - 1 - k);
    }
  }

  lemma TailPrefix(s: string)
    ensures TailLen(s[..TailLen(s)]) == TailLen(s)
  {
    var n, c := TailLen(s), FracLen(s);
    FracPrefix(s, n);
    assert s[..n][c..] == s[c..][..n - c];
    ExpPrefix(s[c..]);
  }

  lemma IntPrefix(s: string, n: nat)
    requires 0 < IntLen(s) <= n <= |s|
    ensures IntLen(s[..n]) == IntLen(s)
  {
    if s[0] != '0' {
      SpanPrefix(s, n);
    }
  }

  lemma UnsignedPrefix(s: string)
    requires UnsignedLen(s) > 0
    ensures UnsignedLen(s[..UnsignedLen(s)]) == UnsignedLen(s)
  {
    var n, b := UnsignedLen(s), IntLen(s);
    IntPrefix(s, n);
    SliceOfPrefix(s, n, b);
    TailPrefix(s[b..]);
    UnsignedIs(s[..n], b, n);
  }

  lemma SliceOfPrefix(s: string, n: nat, b: nat)
    requires b <= n <= |s|
    ensures s[..n][b..] == s[b..][..n - b] && |s[..n]| == n
  {
  }

  lemma UnsignedIs(s: string, b: nat, n: nat)
    requires 0 < b <= n == |s| && IntLen(s) == b && TailLen(s[b..]) == n - b
    ensures UnsignedLen(s) == n
  {
  }

  /** The number at the head of a text is a number. */
  lemma NumberPrefix(s: string)
    requires NumberLen(s) > 0
    ensures IsNumber(s[..NumberLen(s)])
  {
    var n, a := NumberLen(s), SignLen(s);
    SliceOfPrefix(s, n, a);
    UnsignedPrefix(s[a..]);
    NumberIs(s[..n], a, n);
  }

  lemma NumberIs(s: string, a: nat, n: nat)
    requires a <= n == |s| && n > 0 && SignLen(s) == a && UnsignedLen(s[a..]) == n - a > 0
    ensures IsNumber(s)
  {
  }

  lemma {:induction false} ValueNumbersOk(s: string)
    ensures ParseValue(s).Some? ==> NumbersOk(ParseValue(s).value.0)
    decreases |s|, 0
  {
    var t := SkipWs(s);
    if t != "" && ParseValue(s).Some? {
      match t[0]
      case '[' => ElemsNumbersOk(t[1..], true);
      case '{' => MembersNumbersOk(t[1..], true);
      case _ => AtomNumbersOk(t);
    }
  }

  lemma AtomForm(s: string)
    ensures ParseAtom(s).Some? ==>
      var j := ParseAtom(s).value.0;
      j.Null? || j.Bool? || (NumberLen(s) > 0 && j == Number(s[..NumberLen(s)]))
  {
  }

  lemma AtomNumbersOk(s: string)
    ensures ParseAtom(s).Some? ==> NumbersOk(ParseAtom(s).value.0)
  {
    AtomForm(s);
    if NumberLen(s) > 0 {
      NumberPrefix(s);
    }
  }

  predicate ItemsOk(items: seq<Json>) {
    forall i :: 0 <= i < |items| ==> NumbersOk(items[i])
  }

  predicate MembersOk(ms: seq<(string, Json)>) {
    forall i :: 0 <= i < |ms| ==> NumbersOk(ms[i].1)
  }

  lemma {:induction false} ElemsNumbersOk(s: string, first: bool)
    ensures ParseElems(s, first).Some? ==> ItemsOk(ParseElems(s, first).value.0)
    decreases |s|, 1
  {
    var t := SkipWs(s);
    if t != "" && t[0] != ']' && ParseElems(s, first).Some? {
      var u := if first then t else t[1..];
      ValueNumbersOk(u);
      var v := ParseValue(u).value;
      ElemsNumbersOk(v.1, false);
      ItemsOkCons(v.0, ParseElems(v.1, false).value.0);
    }
  }

  lemma ItemsOkCons(v: Json, more: seq<Json>)
    ensures ItemsOk([v] + more) <==> NumbersOk(v) && ItemsOk(more)
  {
    var s := [v] + more;
    assert s[0] == v && s[1..] == more;
    assert forall i :: 0 <= i < |more| ==> s[i + 1] == more[i];
  }

  lemma {:induction false} MembersNumbersOk(s: string, first: bool)
    ensures ParseMembers(s, first).Some? ==> MembersOk(ParseMembers(s, first).value.0)
    decreases |s|, 1
  {
    var t := SkipWs(s);
    if t != "" && t[0] != '}' && ParseMembers(s, first).Some? {
      var u := if first then t else t[1..];
      MemberNumbersOk(u);
      var m := ParseMember(u).value;
      MembersNumbersOk(m.1, false);
      MembersOkCons(m.0, ParseMembers(m.1, false).value.0);
    }
  }

  lemma MembersOkCons(m: (string, Json), more: seq<(string, Json)>)
    ensures MembersOk([m] + more) <==> NumbersOk(m.1) && MembersOk(more)
  {
    var s := [m] + more;
    assert s[0] == m && s[1..] == more;
    assert forall i :: 0 <= i < |more| ==> s[i + 1] == more[i];
  }

  lemma {:induction false} MemberNumbersOk(s: string)
    ensures ParseMember(s).Some? ==> NumbersOk(ParseMember(s).value.0.1)
    decreases |s|, 0
  {
    var t := SkipWs(s);
    if t != "" && t[0] == '"' && ParseMember(s).Some? {
      var k := ParseString(t[1..]);
      ValueNumbersOk(SkipWs(k.value.1)[1..]);
    }
  }

  // ---- numbers in context ----------------------------------------------------------------------------

  /** A continuation that cannot extend a number. */
  predicate Terminal(rest: string) {
    rest == "" || !(IsDigit(rest[0]) || rest[0] == '.' || IsExpMark(rest[0]))
  }

  lemma {:induction false} SpanAppend(s: string, rest: string)
    requires Terminal(rest)
    ensures Span(s + rest) == Span(s)
    decreases |s|
  {
    if s == "" {
      assert s + rest == rest;
    } else {
      SpanAppend(s[1..], rest);
      assert (s + rest)[1..] == s[1..] + rest;
    }
  }

  lemma FracAppend(s: string, rest: string)
    requires Terminal(rest)
    ensures FracLen(s + rest) == FracLen(s)
  {
    if s == "" {
      assert s + rest == rest;
    } else {
      assert (s + rest)[1..] == s[1..] + rest;
      SpanAppend(s[1..], rest);
    }
  }

  lemma ExpAppend(s: string, rest: string)
    requires Terminal(rest) && ExpLen(s) == |s|
    ensures ExpLen(s + rest) == |s|
  {
    if s == "" {
      assert s + rest == rest;
    } else {
      assert (s + rest)[1..] == s[1..] + rest;
      var k := ExpSignLen(s[1..]);
      assert (s[1..] + rest)[k..] == s[1..][k..] + rest;
      SpanAppend(s[1..][k..], rest);
    }
  }

  lemma TailAppend(s: string, rest: string)
    requires Terminal(rest) && TailLen(s) == |s|
    ensures TailLen(s + rest) == |s|
  {
    var c := FracLen(s);
    FracAppend(s, rest);
    assert (s + rest)[c..] == s[c..] + rest;
    ExpAppend(s[c..], rest);
  }

  lemma UnsignedAppend(s: string, rest: string)
    requires Terminal(rest) && s != "" && UnsignedLen(s) == |s|
    ensures UnsignedLen(s + rest) == |s|
  {
    var b := IntLen(s);
    IntAppend(s, rest);
    TailAppend(s[b..], rest);
    SliceOfSum(s, rest, b);
    UnsignedHas(s + rest, b, s[b..] + rest);
  }

  lemma IntAppend(s: string, rest: string)
    requires Terminal(rest) && s != ""
    ensures IntLen(s + rest) == IntLen(s)
  {
    SpanAppend(s, rest);
  }

  lemma SliceOfSum(s: string, rest: string, b: nat)
    requires b <= |s|
    ensures (s + rest)[b..] == s[b..] + rest
  {
  }

  lemma UnsignedHas(s: string, b: nat, t: string)
    requires 0 < b <= |s| && IntLen(s) == b && s[b..] == t
    ensures UnsignedLen(s) == b + TailLen(t)
  {
  }

  /** A number is read as far as it goes. */
  lemma NumberAppend(s: string, rest: string)
    requires IsNumber(s) && Terminal(rest)
    ensures NumberLen(s + rest) == |s|
  {
    var a := SignLen(s);
    NumberSplit(s, a, s[a..]);
    SignAppend(s, rest);
    UnsignedAppend(s[a..], rest);
    NumberJoin(s + rest, a, s[a..] + rest);
  }

  lemma SignAppend(s: string, rest: string)
    requires s != ""
    ensures SignLen(s + rest) == SignLen(s) && (s + rest)[SignLen(s)..] == s[SignLen(s)..] + rest
  {
  }

  lemma NumberSplit(s: string, a: nat, u: string)
    requires IsNumber(s) && a == SignLen(s) && u == s[a..]
    ensures u != "" && UnsignedLen(u) == |u| && |s| == a + |u|
  {
  }

  lemma NumberJoin(s: string, a: nat, u: string)
    requires a == SignLen(s) && u == s[a..] && UnsignedLen(u) > 0
    ensures NumberLen(s) == a + UnsignedLen(u)
  {
  }
}
