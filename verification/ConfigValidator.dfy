/** The configuration validator: its merge of a main file with included fragments, and its cross checks.
    Keys are text; scalars are not resolved to other types than null. */
module ConfigValidator {
  import opened Basics
  import opened Yaml

  // ---- documents as the validator sees them -----------------------------------------------------------

  /** A value the merge looks at: null, a dictionary, or anything else. */
  datatype Py = Null | Dict(entries: map<string, Node>) | Other(node: Node)

  type Doc = map<string, Py>

  predicate IsNullText(s: string) {
    s == "" || s == "~" || s == "null" || s == "Null" || s == "NULL"
  }

  /** A dictionary built pair by pair: the last value of a repeated key stays. */
  function LastWins(pairs: seq<(Node, Node)>): map<string, Node> {
    if pairs == [] then map[]
    else
      var p := pairs[|pairs| - 1];
      var m := LastWins(pairs[..|pairs| - 1]);
      if p.0.Scalar? then m[p.0.text := p.1] else m
  }

  // ---- merge keys -----------------------------------------------------------------------------------------

  /** A pair whose key is `<<`: the loader replaces it by the pairs of the mappings that are its value. */
  predicate IsMerge(p: (Node, Node)) {
    p.0 == Scalar("<<")
  }

  function Own(pairs: seq<(Node, Node)>): seq<(Node, Node)> {
    if pairs == [] then []
    else
      var p := pairs[|pairs| - 1];
      Own(pairs[..|pairs| - 1]) + (if IsMerge(p) then [] else [p])
  }

  /** The pairs a mapping gets from its merge keys, in the order of these. */
  function Inherited(pairs: seq<(Node, Node)>): seq<(Node, Node)>
    decreases pairs, 0
  {
    if pairs == [] then []
    else
      var p := pairs[|pairs| - 1];
      assert p.1 < p;
      Inherited(pairs[..|pairs| - 1]) + (if IsMerge(p) then FlatValue(p.1) else [])
  }

  /** A mapping without merge keys: its own pairs come last and so win. */
  function Flat(pairs: seq<(Node, Node)>): seq<(Node, Node)>
    decreases pairs, 1
  {
    Inherited(pairs) + Own(pairs)
  }

  function FlatValue(v: Node): seq<(Node, Node)>
    decreases v
  {
    match v
    case Mapping(pairs) => Flat(pairs)
    case Sequence(items) => FlatItems(items)
    case _ => []
  }

  /** Of several mappings the first one wins. */
  function FlatItems(items: seq<Node>): seq<(Node, Node)>
    decreases items
  {
    if items == [] then []
    else FlatItems(items[1..]) + (if items[0].Mapping? then Flat(items[0].pairs) else [])
  }

  predicate IsMergeValue(v: Node) {
    v.Mapping? || (v.Sequence? && forall i :: 0 <= i < |v.items| ==> v.items[i].Mapping?)
  }

  /** Whether a document loads: keys are text, and the values of merge keys are mappings or lists of these. */
  predicate Loads(n: Node)
    decreases n
  {
    match n
    case Mapping(pairs) =>
      forall i :: 0 <= i < |pairs| ==>
        pairs[i].0.Scalar? && (IsMerge(pairs[i]) ==> IsMergeValue(pairs[i].1)) && Loads(pairs[i].1)
    case Sequence(items) => forall i :: 0 <= i < |items| ==> Loads(items[i])
    case _ => true
  }

  function PyVal(n: Node): Py {
    match n
    case Mapping(pairs) => Dict(LastWins(Flat(pairs)))
    case Scalar(text) => if IsNullText(text) then Null else Other(n)
    case Sequence(_) => Other(n)
    case _ => Null
  }

  /** A loaded file's top level; none when it does not load or is no dictionary. */
  function Top(n: Node): Option<Doc> {
    if Loads(n) && n.Mapping? then
      var entries := LastWins(Flat(n.pairs));
      Some(map k | k in entries :: PyVal(entries[k]))
    else None
  }

  /** The main file's top level: nothing at all counts as an empty dictionary. */
  function MainTop(n: Node): Option<Doc> {
    if PyVal(n) == Null || n == Sequence([]) then Some(map[]) else Top(n)
  }

  /** `doc.get(k)`: an absent key and a null value are the same to the merge and the checks. */
  function At(doc: Doc, k: string): Py {
    if k in doc then doc[k] else Null
  }

  // ---- one section ------------------------------------------------------------------------------------

  function Entries(v: Py): map<string, Node> {
    if v.Dict? then v.entries else map[]
  }

  predicate Clash(base: Py, v: Py) {
    v != Null && (!v.Dict? || base.Other? || Entries(base).Keys * v.entries.Keys != {})
  }

  /** Merging a section of an overlay into that of the base; `None` is the validator's exit. */
  function Join(base: Py, v: Py): Option<Py> {
    if v == Null then Some(base)
    else if Clash(base, v) then None
    else Some(Dict(Entries(base) + v.entries))
  }

  /** The sections of the fragments, merged one after the other. */
  function JoinAll(base: Py, vs: seq<Py>): Option<Py>
    decreases |vs|
  {
    if vs == [] then Some(base)
    else
      var r := Join(base, vs[0]);
      if r.None? then None else JoinAll(r.value, vs[1..])
  }

  // ---- the merge ----------------------------------------------------------------------------------------

  predicate IsSection(k: string) {
    k == "connectors" || k == "bridges"
  }

  /** What becomes of the value of key `k` when the overlay has `v` there: sections are joined, `includes`
      stays, anything else is overwritten. */
  function MergedKey(base: Py, k: string, v: Py): Option<Py> {
    if k == "includes" then Some(base) else if IsSection(k) then Join(base, v) else Some(v)
  }

  function Merged(base: Doc, overlay: Doc, k: string): Option<Py> {
    if k in overlay then MergedKey(At(base, k), k, overlay[k]) else Some(At(base, k))
  }

  predicate Mergeable(base: Doc, overlay: Doc) {
    Join(At(base, "connectors"), At(overlay, "connectors")).Some?
    && Join(At(base, "bridges"), At(overlay, "bridges")).Some?
  }

  class Validator {
    var base: Doc

    constructor (doc: Doc)
      ensures base == doc
    {
      base := doc;
    }

    /** Merges one key of the overlay; false is the exit. */
    method MergeKey(k: string, v: Py) returns (ok: bool)
      modifies this
      ensures ok <==> IsSection(k) ==> Join(At(old(base), k), v).Some?
      ensures ok ==> forall j :: j != k ==> At(base, j) == At(old(base), j)
      ensures ok ==> Some(At(base, k)) == MergedKey(At(old(base), k), k, v)
    {
      ok := true;
      if IsSection(k) {
        if v == Null {
          return;
        }
        if At(base, k) == Null {
          base := base[k := Dict(map[])];
        }
        if !base[k].Dict? || !v.Dict? {
          return false;
        }
        var dup := base[k].entries.Keys * v.entries.Keys;
        if dup != {} {
          return false;
        }
        base := base[k := Dict(base[k].entries + v.entries)];
      } else if k != "includes" {
        base := base[k := v];
      }
    }

    /** Merges an overlay into the base, its keys in whatever order they come. */
    method MergeConfig(overlay: Doc) returns (ok: bool)
      modifies this
      ensures ok <==> Mergeable(old(base), overlay)
      ensures ok ==> forall k :: Merged(old(base), overlay, k) == Some(At(base, k))
    {
      ghost var was := base;
      var todo := overlay.Keys;
      while todo != {}
        invariant todo <= overlay.Keys
        invariant forall k :: k in todo || k !in overlay ==> At(base, k) == At(was, k)
        invariant forall k :: k in overlay && k !in todo ==> Merged(was, overlay, k) == Some(At(base, k))
        decreases |todo|
      {
        var k :| k in todo;
        ok := MergeKey(k, overlay[k]);
        if !ok {
          return;
        }
        todo := todo - {k};
      }
      ok := true;
    }
  }

  // ---- loading a main file with its includes ------------------------------------------------------------

  /** What `includes` says: nothing to do, a list of files, or an error. */
  function Includes(v: Py): Option<seq<string>> {
    match v
    case Null => Some([])
    case Dict(entries) => if entries == map[] then Some([]) else None
    case Other(Sequence(items)) => Texts(items)
    case _ => None
  }

  function Texts(items: seq<Node>): Option<seq<string>> {
    if items == [] then Some([])
    else
      var r := Texts(items[1..]);
      if items[0].Scalar? && r.Some? then Some([items[0].text] + r.value) else None
  }

  /** The fragments named by the list: every one must exist and be a dictionary. */
  function Fragments(names: seq<string>, files: map<string, Node>): Option<seq<Doc>> {
    if names == [] then Some([])
    else
      var r := Fragments(names[1..], files);
      if names[0] in files && Top(files[names[0]]).Some? && r.Some? then Some([Top(files[names[0]]).value] + r.value)
      else None
  }

  /** One section of every fragment. */
  function Sections(docs: seq<Doc>, k: string): seq<Py> {
    seq(|docs|, i requires 0 <= i < |docs| => At(docs[i], k))
  }

  /** Section `k` of the merged configuration, when every named fragment can be read and merged. */
  function Loaded(main: Node, files: map<string, Node>, k: string): Option<Py> {
    if MainTop(main).None? then None
    else
      var names := Includes(At(MainTop(main).value, "includes"));
      if names.None? then None else Folded(At(MainTop(main).value, k), names.value, files, k)
  }

  predicate Accepts(main: Node, files: map<string, Node>) {
    Loaded(main, files, "connectors").Some? && Loaded(main, files, "bridges").Some?
  }

  /** Section `k` after the named fragments were merged into its value `v`. */
  function Folded(v: Py, names: seq<string>, files: map<string, Node>, k: string): Option<Py> {
    var frags := Fragments(names, files);
    if frags.None? then None else JoinAll(v, Sections(frags.value, k))
  }

  /** One fragment on. */
  lemma FoldStep(v: Py, names: seq<string>, files: map<string, Node>, k: string)
    requires names != []
    ensures Folded(v, names, files, k) ==
      if names[0] !in files || Top(files[names[0]]).None? then None
      else
        var r := Join(v, At(Top(files[names[0]]).value, k));
        if r.None? then None else Folded(r.value, names[1..], files, k)
  {
    var more := Fragments(names[1..], files);
    if names[0] in files && Top(files[names[0]]).Some? && more.Some? {
      var frags := [Top(files[names[0]]).value] + more.value;
      assert Sections(frags, k)[1..] == Sections(more.value, k);
    }
  }

  /** Keys other than the sections and `includes`. */
  predicate IsOtherKey(k: string) {
    !IsSection(k) && k != "includes"
  }

  /** What such a key comes to: the fragments overwrite it one after the other. */
  function Overwritten(v: Py, names: seq<string>, files: map<string, Node>, k: string): Py
    decreases |names|
  {
    if names == [] then v
    else
      var top := if names[0] in files then Top(files[names[0]]) else None;
      Overwritten(if top.Some? && k in top.value then top.value[k] else v, names[1..], files, k)
  }

  /** Whether a named file is there and has the key. */
  predicate HasTopKey(n: string, files: map<string, Node>, k: string) {
    n in files && Top(files[n]).Some? && k in Top(files[n]).value
  }

  /** That is the value in the last fragment that has the key, or else the main file's. */
  lemma {:induction false} LastOneOverwrites(v: Py, names: seq<string>, files: map<string, Node>, k: string, i: nat)
    requires i <= |names| && forall j :: i <= j < |names| ==> !HasTopKey(names[j], files, k)
    requires i > 0 ==> HasTopKey(names[i - 1], files, k)
    ensures Overwritten(v, names, files, k) == if i == 0 then v else Top(files[names[i - 1]]).value[k]
    decreases |names|
  {
    if names != [] {
      var top := if names[0] in files then Top(files[names[0]]) else None;
      var next := if top.Some? && k in top.value then top.value[k] else v;
      LastOneOverwrites(next, names[1..], files, k, if i > 0 then i - 1 else 0);
    }
  }

  /** `doc` is what merging the named fragments into `base` gives. */
  ghost predicate FoldedTo(base: Doc, names: seq<string>, files: map<string, Node>, doc: Doc) {
    && Folded(At(base, "connectors"), names, files, "connectors") == Some(At(doc, "connectors"))
    && Folded(At(base, "bridges"), names, files, "bridges") == Some(At(doc, "bridges"))
    && forall k :: IsOtherKey(k) ==> Overwritten(At(base, k), names, files, k) == At(doc, k)
  }

  predicate Foldable(base: Doc, names: seq<string>, files: map<string, Node>) {
    && Folded(At(base, "connectors"), names, files, "connectors").Some?
    && Folded(At(base, "bridges"), names, files, "bridges").Some?
  }

  /** Reads the main file's fragments one after the other and merges each; false is an exit on the way. A main
      file without includes is taken as it is, with its key. */
  method LoadWithIncludes(main: Node, files: map<string, Node>) returns (ok: bool, doc: Doc)
    ensures ok == Accepts(main, files)
    ensures ok ==> Loaded(main, files, "connectors") == Some(At(doc, "connectors"))
                   && Loaded(main, files, "bridges") == Some(At(doc, "bridges"))
    ensures ok ==> var names := Includes(At(MainTop(main).value, "includes")).value;
      && (forall k :: IsOtherKey(k) ==>
            At(doc, k) == Overwritten(At(MainTop(main).value, k), names, files, k))
      && At(doc, "includes") == if names == [] then At(MainTop(main).value, "includes") else Null
  {
    doc := map[];
    var top := MainTop(main);
    if top == None {
      return false, doc;
    }
    var names := Includes(At(top.value, "includes"));
    if names == None {
      return false, doc;
    }
    if names.value == [] {
      assert Fragments([], files) == Some([]);
      return true, top.value;
    }
    var merged := top.value - {"includes"};
    assert forall k :: k != "includes" ==> At(merged, k) == At(top.value, k);
    ok, doc := MergeIncludes(merged, names.value, files);
  }

  method MergeIncludes(merged: Doc, names: seq<string>, files: map<string, Node>) returns (ok: bool, doc: Doc)
    ensures ok == Foldable(merged, names, files)
    ensures ok ==> FoldedTo(merged, names, files, doc)
    ensures ok ==> At(doc, "includes") == At(merged, "includes")
  {
    var v := new Validator(merged);
    var i := 0;
    while i < |names|
      invariant 0 <= i <= |names|
      invariant SameFold(merged, names, v.base, names[i..], files)
      invariant At(v.base, "includes") == At(merged, "includes")
    {
      doc := v.base;
      FoldOne(v.base, names[i..], files);
      assert names[i..][1..] == names[i + 1..];
      if names[i] !in files || Top(files[names[i]]) == None {
        return false, doc;
      }
      ok := v.MergeConfig(Top(files[names[i]]).value);
      if !ok {
        return;
      }
      assert Merges(doc, Top(files[names[i]]).value, v.base);
      i := i + 1;
    }
    assert Fragments([], files) == Some([]);
    return true, v.base;
  }

  /** Merging `names` into `base` comes to the same as merging `rest` into `now`. */
  ghost predicate SameFold(base: Doc, names: seq<string>, now: Doc, rest: seq<string>, files: map<string, Node>) {
    && Folded(At(base, "connectors"), names, files, "connectors") ==
       Folded(At(now, "connectors"), rest, files, "connectors")
    && Folded(At(base, "bridges"), names, files, "bridges") ==
       Folded(At(now, "bridges"), rest, files, "bridges")
    && forall k :: IsOtherKey(k) ==>
         Overwritten(At(base, k), names, files, k) == Overwritten(At(now, k), rest, files, k)
  }

  lemma FoldOne(base: Doc, names: seq<string>, files: map<string, Node>)
    requires names != []
    ensures names[0] !in files || Top(files[names[0]]).None? ==> !Foldable(base, names, files)
    ensures names[0] in files && Top(files[names[0]]).Some? ==>
      var frag := Top(files[names[0]]).value;
      if Mergeable(base, frag) then
        forall next :: Merges(base, frag, next) ==> SameFold(base, names, next, names[1..], files)
      else !Foldable(base, names, files)
  {
    FoldStep(At(base, "connectors"), names, files, "connectors");
    FoldStep(At(base, "bridges"), names, files, "bridges");
  }

  /** `next` holds the merge of the overlay into the base. */
  ghost predicate Merges(base: Doc, overlay: Doc, next: Doc) {
    && Merged(base, overlay, "connectors") == Some(At(next, "connectors"))
    && Merged(base, overlay, "bridges") == Some(At(next, "bridges"))
    && forall k :: IsOtherKey(k) ==> Merged(base, overlay, k) == Some(At(next, k))
  }

  // ---- cross checks -------------------------------------------------------------------------------------

  datatype Finding = NoObject(section: string) | BridgeNoObject(id: string)
    | UnknownFrom(id: string) | UnknownTo(id: string)

  /** The text of a bridge's end; none when it is absent, null or no text. */
  function End(bridge: Node, k: string): Option<string> {
    match PyVal(bridge)
    case Dict(entries) =>
      if k in entries && entries[k].Scalar? && !IsNullText(entries[k].text) then Some(entries[k].text) else None
    case _ => None
  }

  predicate Knows(connectors: Py, end: Option<string>) {
    end.Some? && end.value in Entries(connectors)
  }

  /** `v or {}`: an empty list counts as nothing too. */
  function OrEmpty(v: Py): Py {
    if v == Other(Sequence([])) then Null else v
  }

  /** What is reported, for any finding. */
  predicate Reported(doc: Doc, f: Finding) {
    var c, b := OrEmpty(At(doc, "connectors")), OrEmpty(At(doc, "bridges"));
    if c.Other? then f == NoObject("connectors")
    else if b.Other? then f == NoObject("bridges")
    else
      match f
      case NoObject(_) => false
      case BridgeNoObject(id) => id in Entries(b) && !PyVal(Entries(b)[id]).Dict?
      case UnknownFrom(id) =>
        id in Entries(b) && PyVal(Entries(b)[id]).Dict? && !Knows(c, End(Entries(b)[id], "from"))
      case UnknownTo(id) =>
        id in Entries(b) && PyVal(Entries(b)[id]).Dict? && !Knows(c, End(Entries(b)[id], "to"))
  }

  /** The checks beyond the schema: the list holds exactly the findings there are. */
  method CrossChecks(doc: Doc) returns (msgs: seq<Finding>)
    ensures forall f :: f in msgs <==> Reported(doc, f)
  {
    var connectors, bridges := OrEmpty(At(doc, "connectors")), OrEmpty(At(doc, "bridges"));
    if connectors.Other? {
      return [NoObject("connectors")];
    }
    if bridges.Other? {
      return [NoObject("bridges")];
    }
    msgs := [];
    var entries := Entries(bridges);
    var todo := entries.Keys;
    while todo != {}
      invariant todo <= entries.Keys
      invariant forall f :: f in msgs <==> Reported(doc, f) && f.id !in todo
      decreases |todo|
    {
      var id :| id in todo;
      todo := todo - {id};
      var found := CheckBridge(connectors, id, entries[id]);
      msgs := msgs + found;
    }
  }

  method CheckBridge(connectors: Py, id: string, b: Node) returns (msgs: seq<Finding>)
    ensures forall f :: f in msgs <==> match f
      case NoObject(_) => false
      case BridgeNoObject(i) => i == id && !PyVal(b).Dict?
      case UnknownFrom(i) => i == id && PyVal(b).Dict? && !Knows(connectors, End(b, "from"))
      case UnknownTo(i) => i == id && PyVal(b).Dict? && !Knows(connectors, End(b, "to"))
  {
    if !PyVal(b).Dict? {
      return [BridgeNoObject(id)];
    }
    msgs := [];
    if !Knows(connectors, End(b, "from")) {
      msgs := msgs + [UnknownFrom(id)];
    }
    if !Knows(connectors, End(b, "to")) {
      msgs := msgs + [UnknownTo(id)];
    }
  }

  /** Both sections are objects or empty, and both ends of every bridge are known. */
  predicate CrossOk(c: Py, b: Py) {
    !OrEmpty(c).Other? && !OrEmpty(b).Other? &&
    forall id :: id in Entries(b) ==>
      Knows(c, End(Entries(b)[id], "from")) && Knows(c, End(Entries(b)[id], "to"))
  }

  /** The list of findings is empty exactly for such configurations. */
  lemma NoFindings(doc: Doc)
    ensures (forall f :: !Reported(doc, f)) <==> CrossOk(At(doc, "connectors"), At(doc, "bridges"))
  {
    var c, b := OrEmpty(At(doc, "connectors")), OrEmpty(At(doc, "bridges"));
    if c.Other? {
      assert Reported(doc, NoObject("connectors"));
    } else if b.Other? {
      assert Reported(doc, NoObject("bridges"));
    } else if forall f :: !Reported(doc, f) {
      forall id | id in Entries(b)
        ensures Knows(c, End(Entries(b)[id], "from")) && Knows(c, End(Entries(b)[id], "to"))
      {
        assert !Reported(doc, BridgeNoObject(id));
        assert !Reported(doc, UnknownFrom(id));
        assert !Reported(doc, UnknownTo(id));
      }
    }
  }
}
