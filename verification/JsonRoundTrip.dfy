/** The JSON a tree is printed as is read back as the tree's value: exactly which trees, and why not others. */
module JsonRoundTrip {
  import opened Basics
  import opened Yaml
  import opened JsonText
  import opened NodeToJson

  // ---- what a tree means ------------------------------------------------------------------------------

  /** The tree as a JSON value: scalars by the printer's own classification, pairs in order with duplicates,
      those without a scalar key left out. */
  function Value(n: Node): Json
    decreases n
  {
    match n
    case Scalar(text) =>
      if IsBool(text) then Bool(text == "true")
      else if StrtodTakesAll(text) then Number(DropSpace(text))
      else Text(text)
    case Sequence(_) => Array(Values(n, 0))
    case Mapping(_) => Object(Members(n, 0))
    case _ => Null
  }

  function Values(n: Node, i: nat): (r: seq<Json>)
    requires n.Sequence? && i <= |n.items|
    ensures |r| == |n.items| - i
    decreases n, |n.items| - i
  {
    if i == |n.items| then [] else [Value(n.items[i])] + Values(n, i + 1)
  }

  function Members(n: Node, i: nat): seq<(string, Json)>
    requires n.Mapping? && i <= |n.pairs|
    decreases n, |n.pairs| - i
  {
    if i == |n.pairs| then []
    else if !n.pairs[i].0.Scalar? then Members(n, i + 1)
    else [(n.pairs[i].0.text, Value(n.pairs[i].1))] + Members(n, i + 1)
  }

  // ---- which trees survive ----------------------------------------------------------------------------

  /** Every scalar that is printed bare as a number is one by the grammar, apart from leading space. */
  predicate TokensOk(n: Node)
    decreases n
  {
    match n
    case Scalar(text) => !IsBool(text) && StrtodTakesAll(text) ==> IsNumber(DropSpace(text))
    case Sequence(items) => forall i :: 0 <= i < |items| ==> TokensOk(items[i])
    case Mapping(pairs) => forall i :: 0 <= i < |pairs| && pairs[i].0.Scalar? ==> TokensOk(pairs[i].1)
    case _ => true
  }

  predicate NoControls(s: string) {
    forall i :: 0 <= i < |s| ==> s[i] >= ' ' || s[i] == '\n'
  }

  /** No string or key has a control character other than newline, and the space before a number is
      JSON's. */
  predicate TextsOk(n: Node)
    decreases n
  {
    match n
    case Scalar(text) =>
      IsBool(text) || (if StrtodTakesAll(text) then SkipWs(text) == DropSpace(text) else NoControls(text))
    case Sequence(items) => forall i :: 0 <= i < |items| ==> TextsOk(items[i])
    case Mapping(pairs) =>
      forall i :: 0 <= i < |pairs| && pairs[i].0.Scalar? ==> NoControls(pairs[i].0.text) && TextsOk(pairs[i].1)
    case _ => true
  }

  // ---- strings ------------------------------------------------------------------------------------------

  lemma EscapeOne(c: char, rest: string)
    ensures ParseString(EscapeChar(c) + rest) ==
      (if c < ' ' && c != '\n' then None
       else match ParseString(rest) case None => None case Some(r) => Some(([c] + r.0, r.1)))
  {
    var s := EscapeChar(c) + rest;
    if c == '"' || c == '\\' || c == '\n' {
      assert s[0] == '\\' && s[2..] == rest;
    } else {
      assert s[1..] == rest;
    }
  }

  /** The reader undoes the escaping, or stops at the first control character left raw. */
  lemma {:induction false} StringBack(t: string, rest: string)
    ensures ParseString(Escape(t) + ("\"" + rest)) == if NoControls(t) then Some((t, rest)) else None
  {
    if t == "" {
      assert Escape(t) + ("\"" + rest) == "\"" + rest;
    } else {
      StringBack(t[1..], rest);
      ConcatAssoc(EscapeChar(t[0]), Escape(t[1..]), "\"" + rest);
      EscapeOne(t[0], Escape(t[1..]) + ("\"" + rest));
      assert t == [t[0]] + t[1..];
      assert NoControls(t) <==> (t[0] >= ' ' || t[0] == '\n') && NoControls(t[1..]);
    }
  }

  lemma QuoteBack(t: string, rest: string)
    ensures var s := Quote(t) + rest;
      s != "" && s[0] == '"' && ParseString(s[1..]) == if NoControls(t) then Some((t, rest)) else None
  {
    ConcatAssoc("\"", Escape(t) + "\"", rest);
    ConcatAssoc(Escape(t), "\"", rest);
    StringBack(t, rest);
    assert ("\"" + (Escape(t) + ("\"" + rest)))[1..] == Escape(t) + ("\"" + rest);
  }

  // ---- scalars ------------------------------------------------------------------------------------------

  lemma SkipNothing(s: string)
    requires s != "" && !IsWs(s[0])
    ensures SkipWs(s) == s
  {
  }

  lemma {:induction false} SkipAppend(s: string, rest: string)
    requires SkipWs(s) != ""
    ensures SkipWs(s + rest) == SkipWs(s) + rest
  {
    if IsWs(s[0]) {
      SkipAppend(s[1..], rest);
      assert (s + rest)[1..] == s[1..] + rest;
    }
  }

  /** What JSON skips is at most what `strtod` skips. */
  lemma {:induction false} SkipLess(s: string)
    requires DropSpace(s) != ""
    ensures SkipWs(s) != "" && (SkipWs(s) == DropSpace(s) || IsSpace(SkipWs(s)[0]))
  {
    if IsWs(s[0]) {
      SkipLess(s[1..]);
    }
  }

  lemma NumberHead(s: string)
    requires NumberLen(s) > 0
    ensures s != "" && (s[0] == '-' || IsDigit(s[0]))
  {
  }

  lemma AtomHead(s: string)
    requires var t := SkipWs(s); t != "" && t[0] != '"' && t[0] != '[' && t[0] != '{'
    ensures ParseValue(s) == ParseAtom(SkipWs(s))
  {
  }

  lemma AtomBack(t: string, rest: string)
    requires IsNumber(t) && Terminal(rest)
    ensures ParseAtom(t + rest) == Some((Number(t), rest))
  {
    NumberHead(t);
    NumberAppend(t, rest);
    Cut(t, rest);
    AtomIsNumber(t + rest, |t|);
  }

  lemma Cut(t: string, rest: string)
    ensures (t + rest)[..|t|] == t && (t + rest)[|t|..] == rest
    ensures t != "" ==> t + rest != "" && (t + rest)[0] == t[0]
  {
  }

  lemma AtomIsNumber(s: string, n: nat)
    requires s != "" && (s[0] == '-' || IsDigit(s[0])) && 0 < n <= |s| && NumberLen(s) == n
    ensures ParseAtom(s) == Some((Number(s[..n]), s[n..]))
  {
  }

  lemma NoAtom(s: string)
    requires s != "" && IsSpace(s[0])
    ensures ParseAtom(s) == None
  {
    if NumberLen(s) > 0 {
      NumberHead(s);
    }
  }

  lemma NumberBack(text: string, rest: string)
    requires IsNumber(DropSpace(text)) && Terminal(rest)
    ensures ParseValue(text + rest) ==
      if SkipWs(text) == DropSpace(text) then Some((Number(DropSpace(text)), rest)) else None
  {
    NumberHead(DropSpace(text));
    SkipLess(text);
    SkipAppend(text, rest);
    AtomHead(text + rest);
    if SkipWs(text) == DropSpace(text) {
      AtomBack(DropSpace(text), rest);
    } else {
      NoAtom(SkipWs(text) + rest);
    }
  }

  lemma WordBack(word: string, v: Json, rest: string)
    requires (word == "true" && v == Bool(true)) || (word == "false" && v == Bool(false))
             || (word == "null" && v == Null)
    ensures ParseValue(word + rest) == Some((v, rest))
  {
    var s := word + rest;
    assert s[0] == word[0];
    SkipNothing(s);
    assert word <= s && s[|word|..] == rest;
  }

  lemma QuotedBack(text: string, rest: string)
    ensures ParseValue(Quote(text) + rest) == if NoControls(text) then Some((Text(text), rest)) else None
  {
    QuoteBack(text, rest);
    SkipNothing(Quote(text) + rest);
  }

  lemma ScalarBack(n: Node, rest: string)
    requires n.Scalar? && TokensOk(n) && Terminal(rest)
    ensures ParseValue(Print(n) + rest) == if TextsOk(n) then Some((Value(n), rest)) else None
  {
    if IsBool(n.text) {
      WordBack(n.text, Bool(n.text == "true"), rest);
    } else if StrtodTakesAll(n.text) {
      NumberBack(n.text, rest);
    } else {
      QuotedBack(n.text, rest);
    }
  }

  // ---- trees --------------------------------------------------------------------------------------------

  /** Everything a tree with proper numbers is printed as begins, after white space, with something other
      than a closing bracket. */
  lemma HeadOfPrint(n: Node, rest: string)
    requires TokensOk(n)
    ensures var t := SkipWs(Print(n) + rest); t != "" && t[0] != ']'
  {
    if n.Scalar? && !IsBool(n.text) && StrtodTakesAll(n.text) {
      SkipLess(n.text);
      SkipAppend(n.text, rest);
      NumberHead(DropSpace(n.text));
    } else {
      SkipNothing(Print(n) + rest);
    }
  }

  lemma ValueAfterSpace(s: string)
    ensures ParseValue(SkipWs(s)) == ParseValue(s)
  {
    if SkipWs(s) != "" {
      SkipNothing(SkipWs(s));
    }
  }

  /** The first element: the reader looks past white space for a closing bracket first. */
  lemma FirstElem(n: Node, rest: string)
    requires TokensOk(n)
    ensures ParseElems(Print(n) + rest, true) == Then(ParseValue(Print(n) + rest))
  {
    HeadOfPrint(n, rest);
    ValueAfterSpace(Print(n) + rest);
  }

  /** The elements that follow an element. */
  function Then(v: Option<(Json, string)>): Option<(seq<Json>, string)> {
    if v.None? then None
    else
      var more := ParseElems(v.value.1, false);
      if more.None? then None else Some(([v.value.0] + more.value.0, more.value.1))
  }

  lemma NextElem(s: string)
    ensures ParseElems("," + s, false) == Then(ParseValue(s))
  {
    SkipNothing("," + s);
    assert ("," + s)[1..] == s;
  }

  lemma LastElem(rest: string, first: bool)
    ensures ParseElems("]" + rest, first) == Some(([], rest))
  {
    SkipNothing("]" + rest);
    assert ("]" + rest)[1..] == rest;
  }

  lemma ArrayHead(s: string)
    ensures ParseValue("[" + s) ==
      match ParseElems(s, true) case None => None case Some(r) => Some((Array(r.0), r.1))
  {
    SkipNothing("[" + s);
    assert ("[" + s)[1..] == s;
  }

  lemma ItemsTerminal(n: Node, i: nat, rest: string)
    requires n.Sequence? && 0 < i <= |n.items|
    ensures Terminal(PrintItems(n, i) + ("]" + rest))
  {
  }

  predicate ItemsTextsOk(n: Node, i: nat)
    requires n.Sequence?
  {
    forall k :: i <= k < |n.items| ==> TextsOk(n.items[k])
  }

  lemma {:induction false} ItemsBack(n: Node, i: nat, rest: string)
    requires n.Sequence? && i <= |n.items| && TokensOk(n)
    ensures ParseElems(PrintItems(n, i) + ("]" + rest), i == 0) ==
      if ItemsTextsOk(n, i) then Some((Values(n, i), rest)) else None
    decreases n, |n.items| - i
  {
    if i == |n.items| {
      ItemsEnd(n, i, rest);
    } else {
      var x := PrintItems(n, i + 1) + ("]" + rest);
      ItemsTerminal(n, i + 1, rest);
      TreeBack(n.items[i], x);
      ItemsBack(n, i + 1, rest);
      ItemsText(n, i, rest);
      OneItemBack(n, i, x, PrintItems(n, i) + ("]" + rest));
      ItemsStep(n, i, x, rest);
    }
  }

  lemma ItemsEnd(n: Node, i: nat, rest: string)
    requires n.Sequence? && i == |n.items|
    ensures ParseElems(PrintItems(n, i) + ("]" + rest), i == 0) == Some((Values(n, i), rest))
    ensures ItemsTextsOk(n, i)
  {
    LastElem(rest, i == 0);
    assert "" + ("]" + rest) == "]" + rest;
  }

  /** Items from `i` on in front of the rest, regrouped the way the reader takes them. */
  lemma ItemsText(n: Node, i: nat, rest: string)
    requires n.Sequence? && i < |n.items|
    ensures PrintItems(n, i) + ("]" + rest) ==
      (if i > 0 then "," else "") + (Print(n.items[i]) + (PrintItems(n, i + 1) + ("]" + rest)))
  {
    var tail := PrintItems(n, i + 1);
    ConcatAssoc(Print(n.items[i]), tail, "]" + rest);
    ConcatAssoc(if i > 0 then "," else "", Print(n.items[i]) + tail, "]" + rest);
  }

  lemma ItemsStep(n: Node, i: nat, x: string, rest: string)
    requires n.Sequence? && i < |n.items|
    requires ParseElems(x, false) == (if ItemsTextsOk(n, i + 1) then Some((Values(n, i + 1), rest)) else None)
    ensures (if TextsOk(n.items[i]) then Then(Some((Value(n.items[i]), x))) else None) ==
      if ItemsTextsOk(n, i) then Some((Values(n, i), rest)) else None
  {
    assert ItemsTextsOk(n, i) <==> TextsOk(n.items[i]) && ItemsTextsOk(n, i + 1);
  }

  lemma OneItemBack(n: Node, i: nat, x: string, s: string)
    requires n.Sequence? && i < |n.items| && TokensOk(n.items[i])
    requires s == (if i > 0 then "," else "") + (Print(n.items[i]) + x)
    requires ParseValue(Print(n.items[i]) + x) ==
      if TextsOk(n.items[i]) then Some((Value(n.items[i]), x)) else None
    ensures ParseElems(s, i == 0) ==
      if TextsOk(n.items[i]) then Then(Some((Value(n.items[i]), x))) else None
  {
    if i == 0 {
      FirstElem(n.items[i], x);
      assert s == Print(n.items[i]) + x;
    } else {
      NextElem(Print(n.items[i]) + x);
    }
  }

  lemma SequenceBack(n: Node, rest: string)
    requires n.Sequence? && TokensOk(n)
    ensures ParseValue(Print(n) + rest) == if TextsOk(n) then Some((Value(n), rest)) else None
    decreases n, |n.items| + 1
  {
    ItemsBack(n, 0, rest);
    ConcatAssoc("[", PrintItems(n, 0) + "]", rest);
    ConcatAssoc(PrintItems(n, 0), "]", rest);
    ArrayHead(PrintItems(n, 0) + ("]" + rest));
  }

  // ---- objects ------------------------------------------------------------------------------------------

  function ThenMembers(m: Option<((string, Json), string)>): Option<(seq<(string, Json)>, string)> {
    if m.None? then None
    else
      var more := ParseMembers(m.value.1, false);
      if more.None? then None else Some(([m.value.0] + more.value.0, more.value.1))
  }

  lemma FirstMember(s: string)
    requires s != "" && s[0] == '"'
    ensures ParseMembers(s, true) == ThenMembers(ParseMember(s))
  {
    SkipNothing(s);
  }

  lemma NextMember(s: string)
    ensures ParseMembers("," + s, false) == ThenMembers(ParseMember(s))
  {
    SkipNothing("," + s);
    assert ("," + s)[1..] == s;
  }

  lemma LastMember(rest: string, first: bool)
    ensures ParseMembers("}" + rest, first) == Some(([], rest))
  {
    SkipNothing("}" + rest);
    assert ("}" + rest)[1..] == rest;
  }

  lemma ObjectHead(s: string)
    ensures ParseValue("{" + s) ==
      match ParseMembers(s, true) case None => None case Some(r) => Some((Object(r.0), r.1))
  {
    SkipNothing("{" + s);
    assert ("{" + s)[1..] == s;
  }

  lemma MemberBack(key: string, v: string, x: string)
    ensures var s := Quote(key) + (":" + (v + x));
      s != "" && s[0] == '"' &&
      ParseMember(s) ==
        if !NoControls(key) then None
        else match ParseValue(v + x) case None => None case Some(r) => Some(((key, r.0), r.1))
  {
    var colon := ":" + (v + x);
    QuoteBack(key, colon);
    SkipNothing(Quote(key) + colon);
    SkipNothing(colon);
    assert colon[1..] == v + x;
  }

  lemma {:induction false} PairsTerminal(n: Node, i: nat, rest: string)
    requires n.Mapping? && i <= |n.pairs|
    ensures Terminal(PrintPairs(n, i, false) + ("}" + rest))
    decreases |n.pairs| - i
  {
    if i < |n.pairs| && !n.pairs[i].0.Scalar? {
      PairsTerminal(n, i + 1, rest);
    }
  }

  predicate PairOk(p: (Node, Node)) {
    p.0.Scalar? ==> NoControls(p.0.text) && TextsOk(p.1)
  }

  predicate PairsTextsOk(n: Node, i: nat)
    requires n.Mapping?
  {
    forall k :: i <= k < |n.pairs| ==> PairOk(n.pairs[k])
  }

  /** A printed pair in front of `x`, regrouped the way the reader takes it. */
  lemma PairText(n: Node, i: nat, x: string)
    requires n.Mapping? && i < |n.pairs| && n.pairs[i].0.Scalar?
    ensures PrintPair(n, i) + x == Quote(n.pairs[i].0.text) + (":" + (Print(n.pairs[i].1) + x))
  {
    var key, v := Quote(n.pairs[i].0.text), Print(n.pairs[i].1);
    ConcatAssoc(key, ":" + v, x);
    ConcatAssoc(":", v, x);
  }

  lemma {:induction false} PairsBack(n: Node, i: nat, first: bool, rest: string)
    requires n.Mapping? && i <= |n.pairs| && TokensOk(n)
    ensures ParseMembers(PrintPairs(n, i, first) + ("}" + rest), first) ==
      if PairsTextsOk(n, i) then Some((Members(n, i), rest)) else None
    decreases n, |n.pairs| - i
  {
    if i == |n.pairs| {
      LastMember(rest, first);
      assert "" + ("}" + rest) == "}" + rest;
    } else {
      PairsOkCons(n, i);
      if n.pairs[i].0.Scalar? {
        PairsBack(n, i + 1, false, rest);
        var tail := PrintPairs(n, i + 1, false);
        var x := tail + ("}" + rest);
        PairsTerminal(n, i + 1, rest);
        TreeBack(n.pairs[i].1, x);
        OnePairBack(n, i, first, x);
        PairsText(n, i, first, rest);
        PairsStep(n, i, x, rest);
      } else {
        PairsBack(n, i + 1, first, rest);
      }
    }
  }

  lemma PairsText(n: Node, i: nat, first: bool, rest: string)
    requires n.Mapping? && i < |n.pairs| && n.pairs[i].0.Scalar?
    ensures PrintPairs(n, i, first) + ("}" + rest) ==
      (if first then "" else ",") + (PrintPair(n, i) + (PrintPairs(n, i + 1, false) + ("}" + rest)))
  {
    var tail := PrintPairs(n, i + 1, false);
    ConcatAssoc(PrintPair(n, i), tail, "}" + rest);
    ConcatAssoc(if first then "" else ",", PrintPair(n, i) + tail, "}" + rest);
  }

  lemma PairsOkCons(n: Node, i: nat)
    requires n.Mapping? && i < |n.pairs|
    ensures PairsTextsOk(n, i) <==> PairOk(n.pairs[i]) && PairsTextsOk(n, i + 1)
  {
  }

  lemma PairsStep(n: Node, i: nat, x: string, rest: string)
    requires n.Mapping? && i < |n.pairs| && n.pairs[i].0.Scalar?
    requires ParseMembers(x, false) == (if PairsTextsOk(n, i + 1) then Some((Members(n, i + 1), rest)) else None)
    ensures (if PairOk(n.pairs[i]) then ThenMembers(Some(((n.pairs[i].0.text, Value(n.pairs[i].1)), x))) else None) ==
      if PairsTextsOk(n, i) then Some((Members(n, i), rest)) else None
  {
    PairsOkCons(n, i);
  }

  lemma OnePairBack(n: Node, i: nat, first: bool, x: string)
    requires n.Mapping? && i < |n.pairs| && n.pairs[i].0.Scalar?
    requires ParseValue(Print(n.pairs[i].1) + x) ==
      if TextsOk(n.pairs[i].1) then Some((Value(n.pairs[i].1), x)) else None
    ensures ParseMembers((if first then "" else ",") + (PrintPair(n, i) + x), first) ==
      if PairOk(n.pairs[i]) then ThenMembers(Some(((n.pairs[i].0.text, Value(n.pairs[i].1)), x))) else None
  {
    PairText(n, i, x);
    MemberBack(n.pairs[i].0.text, Print(n.pairs[i].1), x);
    var s := PrintPair(n, i) + x;
    if first {
      FirstMember(s);
      assert "" + s == s;
    } else {
      NextMember(s);
    }
  }

  lemma MappingBack(n: Node, rest: string)
    requires n.Mapping? && TokensOk(n)
    ensures ParseValue(Print(n) + rest) == if TextsOk(n) then Some((Value(n), rest)) else None
    decreases n, |n.pairs| + 1
  {
    PairsBack(n, 0, true, rest);
    ConcatAssoc("{", PrintPairs(n, 0, true) + "}", rest);
    ConcatAssoc(PrintPairs(n, 0, true), "}", rest);
    ObjectHead(PrintPairs(n, 0, true) + ("}" + rest));
    assert TextsOk(n) <==> PairsTextsOk(n, 0);
  }

  lemma {:induction false} TreeBack(n: Node, rest: string)
    requires TokensOk(n) && Terminal(rest)
    ensures ParseValue(Print(n) + rest) == if TextsOk(n) then Some((Value(n), rest)) else None
    decreases n
  {
    match n
    case Scalar(_) => ScalarBack(n, rest);
    case Sequence(_) => SequenceBack(n, rest);
    case Mapping(_) => MappingBack(n, rest);
    case _ => WordBack("null", Null, rest);
  }

  // ---- the rest of the trees ----------------------------------------------------------------------------

  /** The value of a tree with an improper number is no JSON value at all. */
  lemma {:induction false} BadTokenBadValue(n: Node)
    requires !TokensOk(n)
    ensures !NumbersOk(Value(n))
    decreases n
  {
    match n
    case Sequence(items) =>
      var k :| 0 <= k < |items| && !TokensOk(items[k]);
      BadTokenBadValue(items[k]);
      BadItem(n, 0, k);
    case Mapping(pairs) =>
      var k :| 0 <= k < |pairs| && pairs[k].0.Scalar? && !TokensOk(pairs[k].1);
      BadTokenBadValue(pairs[k].1);
      BadMember(n, 0, k);
    case _ =>
  }

  lemma {:induction false} BadItem(n: Node, i: nat, k: nat)
    requires n.Sequence? && i <= k < |n.items| && !NumbersOk(Value(n.items[k]))
    ensures !ItemsOk(Values(n, i))
    decreases k - i
  {
    ItemsOkCons(Value(n.items[i]), Values(n, i + 1));
    if i < k {
      BadItem(n, i + 1, k);
    }
  }

  lemma {:induction false} BadMember(n: Node, i: nat, k: nat)
    requires n.Mapping? && i <= k < |n.pairs| && n.pairs[k].0.Scalar? && !NumbersOk(Value(n.pairs[k].1))
    ensures !MembersOk(Members(n, i))
    decreases k - i
  {
    if n.pairs[i].0.Scalar? {
      MembersOkCons((n.pairs[i].0.text, Value(n.pairs[i].1)), Members(n, i + 1));
    }
    if i < k {
      BadMember(n, i + 1, k);
    }
  }

  /** Reading what was printed, in front of anything that cannot extend a number, gives the tree's value and
      leaves the rest, if and only if the tree's numbers and texts are proper. */
  lemma PrintReadsBack(n: Node, rest: string)
    requires Terminal(rest)
    ensures ParseValue(Print(n) + rest) == Some((Value(n), rest)) <==> TokensOk(n) && TextsOk(n)
  {
    if TokensOk(n) {
      TreeBack(n, rest);
    } else {
      BadTokenBadValue(n);
      ValueNumbersOk(Print(n) + rest);
    }
  }

  /** The same for the whole text handed to a connector. */
  lemma DocumentReadsBack(n: Node)
    ensures Parse(Print(n)) == Some(Value(n)) <==> TokensOk(n) && TextsOk(n)
  {
    assert Print(n) + "" == Print(n);
    if TokensOk(n) {
      TreeBack(n, "");
    } else {
      BadTokenBadValue(n);
      ValueNumbersOk(Print(n));
    }
  }

  // ---- where the two notions of number meet -------------------------------------------------------------

  lemma {:induction false} RunIsSpan(s: string)
    ensures Run(s, false) == Span(s)
  {
    if s != "" {
      RunIsSpan(s[1..]);
    }
  }

  lemma ExponentIsStrtod(s: string)
    requires s != "" && ExpLen(s) == |s|
    ensures IsExponent(s, false)
  {
    var k := ExpSignLen(s[1..]);
    RunIsSpan(s[1..][k..]);
    assert s[1..][k..] == if k == 1 then s[2..] else s[1..];
  }

  lemma TailIsStrtod(s: string, t: string)
    requires s != "" && Span(s) > 0 && t == s[Span(s)..] && TailLen(t) == |t|
    ensures IsFloat(s, false)
  {
    RunIsSpan(s);
    var c := FracLen(t);
    if t != "" {
      RunIsSpan(t[1..]);
    }
    if c > 0 {
      assert t[1..][Span(t[1..])..] == t[c..];
    }
    if t[c..] != "" {
      ExponentIsStrtod(t[c..]);
    }
  }

  lemma NumberIsStrtod(s: string)
    requires IsNumber(s)
    ensures IsStrtod(s)
  {
    NumberHead(s);
    var u := s[SignLen(s)..];
    assert u != "" && UnsignedLen(u) == |u|;
    UnsignedIsStrtod(u);
  }

  lemma UnsignedIsStrtod(u: string)
    requires u != "" && UnsignedLen(u) == |u|
    ensures IsFloat(u, false)
  {
    var b := IntLen(u);
    var t := u[b..];
    if u[0] == '0' {
      assert t == "" || !IsDigit(t[0]);
      assert u[1..] == t && Span(t) == 0;
    }
    TailIsStrtod(u, t);
  }

  lemma BareNumber(s: string)
    requires s != "" && !IsSpace(s[0]) && s[0] != 't' && s[0] != 'f' && IsStrtod(s)
    ensures Print(Scalar(s)) == s && Value(Scalar(s)) == Number(s)
    ensures TokensOk(Scalar(s)) <==> IsNumber(s)
    ensures TextsOk(Scalar(s))
  {
    SkipNothing(s);
    assert DropSpace(s) == s;
  }

  /** Every number of the grammar is one for `strtod`, so it is printed bare and read back. */
  lemma NumbersPrintBare(s: string)
    requires IsNumber(s)
    ensures Print(Scalar(s)) == s && Value(Scalar(s)) == Number(s) && TokensOk(Scalar(s)) && TextsOk(Scalar(s))
  {
    NumberHead(s);
    NumberIsStrtod(s);
    BareNumber(s);
  }

  /** The converse fails: the empty scalar, and any number with a plus sign, are printed bare too. */
  lemma StrtodTakesMore(s: string)
    requires IsNumber(s) && s[0] != '-'
    ensures !TokensOk(Scalar("")) && Print(Scalar("+" + s)) == "+" + s && !TokensOk(Scalar("+" + s))
  {
    EmptyIsBare();
    PlusIsBare(s, "+" + s);
  }

  lemma EmptyIsBare()
    ensures !TokensOk(Scalar(""))
  {
  }

  lemma PlusIsBare(s: string, t: string)
    requires IsNumber(s) && s[0] != '-' && t == "+" + s
    ensures Print(Scalar(t)) == t && !TokensOk(Scalar(t))
  {
    NumberHead(s);
    NumberIsStrtod(s);
    PlusIsStrtod(s);
    NoPlus(s);
    BareNumber(t);
  }

  lemma PlusIsStrtod(s: string)
    requires s != "" && s[0] != '-' && s[0] != '+' && IsStrtod(s)
    ensures IsStrtod("+" + s)
  {
    assert ("+" + s)[1..] == s;
  }

  lemma NoPlus(s: string)
    ensures !IsNumber("+" + s)
  {
    if NumberLen("+" + s) > 0 {
      NumberHead("+" + s);
    }
  }

  /** So are hexadecimal numbers, infinities and what is not a number, with or without a minus sign; none of
      them is JSON. */
  lemma HexIsBare(h: string, x: char)
    requires h != "" && (forall i :: 0 <= i < |h| ==> IsDigitOf(h[i], true)) && (x == 'x' || x == 'X')
    ensures var s := ['0', x] + h;
      && Print(Scalar(s)) == s && !TokensOk(Scalar(s))
      && Print(Scalar("-" + s)) == "-" + s && !TokensOk(Scalar("-" + s))
  {
    var s := ['0', x] + h;
    assert s[2..] == h && s[..2] == ['0', x];
    assert "0x" == ['0', 'x'] && "0X" == ['0', 'X'];
    RunAll(h);
    assert h[|h|..] == "";
    NoHexNumber(s);
    BareNumber(s);
    assert ("-" + s)[1..] == s;
    BareNumber("-" + s);
  }

  lemma {:induction false} RunAll(h: string)
    requires forall i :: 0 <= i < |h| ==> IsDigitOf(h[i], true)
    ensures Run(h, true) == |h|
  {
    if h != "" {
      RunAll(h[1..]);
    }
  }

  lemma NoHexNumber(s: string)
    requires |s| > 2 && s[0] == '0' && (s[1] == 'x' || s[1] == 'X')
    ensures !IsNumber(s) && !IsNumber("-" + s)
  {
    assert s[1..][0] == s[1];
    assert s[1..][0..] == s[1..];
    assert UnsignedLen(s) == 1;
    assert s[0..] == s && ("-" + s)[1..] == s;
  }

  lemma SpecialIsBare(s: string)
    requires Lower(s) == "inf" || Lower(s) == "infinity" || Lower(s) == "nan"
    ensures Print(Scalar(s)) == s && !TokensOk(Scalar(s))
    ensures Print(Scalar("-" + s)) == "-" + s && !TokensOk(Scalar("-" + s))
  {
    SpecialHead(s);
    assert s[..|s|] == s;
    assert ("-" + s)[1..] == s;
    NoSpecialNumber(s);
    BareNumber(s);
    BareNumber("-" + s);
  }

  lemma SpecialHead(s: string)
    requires Lower(s) == "inf" || Lower(s) == "infinity" || Lower(s) == "nan"
    ensures s != "" && (s[0] == 'i' || s[0] == 'I' || s[0] == 'n' || s[0] == 'N')
    ensures Lower(s) == "nan" ==> |s| == 3
  {
    assert |Lower(s)| == |s|;
    assert Lower(s)[0] == 'i' || Lower(s)[0] == 'n';
  }

  lemma NoSpecialNumber(s: string)
    requires s != "" && (s[0] == 'i' || s[0] == 'I' || s[0] == 'n' || s[0] == 'N')
    ensures !IsNumber(s) && !IsNumber("-" + s)
  {
    if NumberLen(s) > 0 {
      NumberHead(s);
    }
    assert ("-" + s)[1..] == s;
  }
}
