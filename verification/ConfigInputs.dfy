/** Configurations that pass the validator and that the daemon reads differently. */
module ConfigInputs {
  import opened Basics
  import opened Yaml
  import opened ConfigValidator
  import opened ConfigLoader
  import opened ConfigAgreement
  import opened BridgeAgreement

  // ---- what the schema asks --------------------------------------------------------------------------------

  /** The pattern `^[a-zA-Z0-9_-]+$`. */
  predicate IsName(s: string) {
    s != "" && forall i :: 0 <= i < |s| ==>
      'a' <= s[i] <= 'z' || 'A' <= s[i] <= 'Z' || IsDigit(s[i]) || s[i] == '_' || s[i] == '-'
  }

  const DEVICE := "/dev/spidev"

  /** The pattern `^/dev/spidev\d+\.\d+$`. */
  predicate IsDevice(s: string) {
    DEVICE <= s && exists dot :: 0 < dot < |s| - |DEVICE| - 1 && DotAt(s[|DEVICE|..], dot)
  }

  predicate DotAt(s: string, dot: nat)
    requires dot < |s|
  {
    s[dot] == '.' && forall i :: 0 <= i < |s| && i != dot ==> IsDigit(s[i])
  }

  /** A connector of type `spi` with no more parameters than the schema requires. */
  predicate SpiConnector(c: Node) {
    var e := Entries(PyVal(c));
    c.Mapping? && e.Keys == {"type", "params"} && e["type"] == Scalar("spi") && SpiParams(e["params"])
  }

  predicate SpiParams(p: Node) {
    var e := Entries(PyVal(p));
    p.Mapping? && e.Keys == {"device"} && e["device"].Scalar? && IsDevice(e["device"].text)
  }

  /** A bridge with its two ends and nothing else. */
  predicate PlainBridge(b: Node) {
    var e := Entries(PyVal(b));
    b.Mapping? && e.Keys == {"from", "to"} && IsEnd(e["from"]) && IsEnd(e["to"])
  }

  predicate IsEnd(n: Node) {
    n.Scalar? && IsName(n.text)
  }

  predicate Connectors(cs: map<string, Node>) {
    cs != map[] && forall name :: name in cs ==> IsName(name) && SpiConnector(cs[name])
  }

  predicate Bridges(bs: map<string, Node>) {
    bs != map[] && forall name :: name in bs ==> IsName(name) && PlainBridge(bs[name])
  }

  /** The top level: an empty gateway, and no sections other than those of the schema. */
  predicate MainShape(main: Node) {
    && Top(main).Some? && Top(main).value.Keys <= {"gateway", "connectors", "bridges", "includes"}
    && At(Top(main).value, "gateway") == Dict(map[])
  }

  predicate FragmentShape(file: Node) {
    Top(file).Some? && Top(file).value.Keys <= {"connectors", "bridges"}
  }

  /** The merge succeeds, and its top level is as the schema asks. */
  predicate MergesWell(main: Node, files: map<string, Node>) {
    Accepts(main, files) && MainShape(main) && forall n :: n in files ==> FragmentShape(files[n])
  }

  predicate SectionsPass(c: Py, b: Py) {
    Connectors(Entries(c)) && Bridges(Entries(b)) && CrossOk(c, b)
  }

  /** The configuration passes the merge, the schema and the cross checks. */
  predicate Passes(main: Node, files: map<string, Node>) {
    && MergesWell(main, files)
    && SectionsPass(Loaded(main, files, "connectors").value, Loaded(main, files, "bridges").value)
  }

  // ---- the parts they are built from -------------------------------------------------------------------------

  function Spi(device: string): Node {
    Mapping([(Scalar("type"), Scalar("spi")), (Scalar("params"), Mapping([(Scalar("device"), Scalar(device))]))])
  }

  function Link(from: string, to: string): Node {
    Mapping([(Scalar("from"), Scalar(from)), (Scalar("to"), Scalar(to))])
  }

  function Named(name: string, n: Node): (Node, Node) {
    (Scalar(name), n)
  }

  predicate Plain(p: (Node, Node)) {
    p.0.Scalar? && !IsMerge(p)
  }

  lemma WinsStep(pairs: seq<(Node, Node)>, p: (Node, Node))
    requires p.0.Scalar?
    ensures LastWins(pairs + [p]) == LastWins(pairs)[p.0.text := p.1]
  {
    assert (pairs + [p])[..|pairs|] == pairs;
  }

  lemma OwnStep(pairs: seq<(Node, Node)>, p: (Node, Node))
    requires !IsMerge(p)
    ensures Own(pairs + [p]) == Own(pairs) + [p] && Inherited(pairs + [p]) == Inherited(pairs)
  {
    assert (pairs + [p])[..|pairs|] == pairs;
  }

  lemma One(p: (Node, Node))
    requires Plain(p)
    ensures Flat([p]) == [p] && LastWins([p]) == map[p.0.text := p.1]
  {
    assert [] + [p] == [p];
    OwnStep([], p);
    WinsStep([], p);
  }

  lemma Two(p: (Node, Node), q: (Node, Node))
    requires Plain(p) && Plain(q)
    ensures Flat([p, q]) == [p, q] && LastWins([p, q]) == map[p.0.text := p.1][q.0.text := q.1]
  {
    assert [p] + [q] == [p, q];
    One(p);
    OwnStep([p], q);
    WinsStep([p], q);
  }

  lemma Three(p: (Node, Node), q: (Node, Node), r: (Node, Node))
    requires Plain(p) && Plain(q) && Plain(r)
    ensures Flat([p, q, r]) == [p, q, r]
    ensures LastWins([p, q, r]) == map[p.0.text := p.1][q.0.text := q.1][r.0.text := r.1]
  {
    assert [p, q] + [r] == [p, q, r];
    Two(p, q);
    OwnStep([p, q], r);
    WinsStep([p, q], r);
  }

  lemma Four(p: (Node, Node), q: (Node, Node), r: (Node, Node), s: (Node, Node))
    requires Plain(p) && Plain(q) && Plain(r) && Plain(s)
    ensures Flat([p, q, r, s]) == [p, q, r, s]
    ensures LastWins([p, q, r, s]) == map[p.0.text := p.1][q.0.text := q.1][r.0.text := r.1][s.0.text := s.1]
  {
    assert [p, q, r] + [s] == [p, q, r, s];
    Three(p, q, r);
    OwnStep([p, q, r], s);
    WinsStep([p, q, r], s);
  }

  /** A pair behind a merge key. */
  lemma Behind(p: (Node, Node), q: (Node, Node))
    requires Plain(p) && Plain(q)
    ensures var m := Named("<<", Mapping([p]));
      Flat([m, q]) == [p, q]
  {
    var m := Named("<<", Mapping([p]));
    assert [m] + [q] == [m, q] && [p] + [q] == [p, q];
    One(p);
    OwnStep([m], q);
    assert [m][..0] == [];
    assert Inherited([m]) == [p] && Own([m]) == [];
  }

  lemma ParamsMeet(device: string)
    requires IsDevice(device)
    ensures var p := Mapping([Named("device", Scalar(device))]);
      SpiParams(p) && Loads(p)
  {
    One(Named("device", Scalar(device)));
  }

  lemma SpiMeets(device: string)
    requires IsDevice(device)
    ensures SpiConnector(Spi(device)) && Loads(Spi(device))
  {
    ParamsMeet(device);
    Two(Named("type", Scalar("spi")), Named("params", Mapping([Named("device", Scalar(device))])));
  }

  lemma LinkMeets(from: string, to: string)
    requires IsName(from) && IsName(to) && !IsNullText(from) && !IsNullText(to)
    ensures PlainBridge(Link(from, to)) && Loads(Link(from, to))
    ensures End(Link(from, to), "from") == Some(from) && End(Link(from, to), "to") == Some(to)
  {
    Two(Named("from", Scalar(from)), Named("to", Scalar(to)));
  }

  lemma OneConnector(name: string, c: Node)
    requires IsName(name) && SpiConnector(c)
    ensures Connectors(map[name := c])
  {
    assert name in map[name := c];
  }

  lemma OneBridge(name: string, b: Node)
    requires IsName(name) && PlainBridge(b)
    ensures Bridges(map[name := b])
  {
    assert name in map[name := b];
  }

  const FIRST := "/dev/spidev0.0"
  const SECOND := "/dev/spidev0.1"

  lemma Devices()
    ensures IsDevice(FIRST) && IsDevice(SECOND) && FIRST != SECOND
  {
    assert FIRST[|DEVICE|..] == "0.0" && SECOND[|DEVICE|..] == "0.1";
    assert DotAt("0.0", 1) && DotAt("0.1", 1);
    assert FIRST[13] == '0' && SECOND[13] == '1';
  }

  lemma LoadsOne(p: (Node, Node))
    requires Plain(p) && Loads(p.1)
    ensures Loads(Mapping([p]))
  {
  }

  lemma LoadsTwo(p: (Node, Node), q: (Node, Node))
    requires p.0.Scalar? && (IsMerge(p) ==> IsMergeValue(p.1)) && Loads(p.1) && Plain(q) && Loads(q.1)
    ensures Loads(Mapping([p, q]))
  {
  }

  lemma LoadsThree(p: (Node, Node), q: (Node, Node), r: (Node, Node))
    requires Plain(p) && Loads(p.1) && Plain(q) && Loads(q.1) && Plain(r) && Loads(r.1)
    ensures Loads(Mapping([p, q, r]))
  {
  }

  lemma LoadsFour(p: (Node, Node), q: (Node, Node), r: (Node, Node), s: (Node, Node))
    requires Plain(p) && Loads(p.1) && Plain(q) && Loads(q.1) && Plain(r) && Loads(r.1) && Plain(s) && Loads(s.1)
    ensures Loads(Mapping([p, q, r, s]))
  {
  }

  /** One good bridge between two of the connectors. */
  lemma OneBridgePasses(c: map<string, Node>, name: string, b: Node, from: string, to: string)
    requires Connectors(c) && IsName(name) && PlainBridge(b)
    requires End(b, "from") == Some(from) && from in c && End(b, "to") == Some(to) && to in c
    ensures SectionsPass(Dict(c), Dict(map[name := b]))
  {
    OneBridge(name, b);
    EndsKnown(c, name, b, from, to);
  }

  lemma EndsKnown(c: map<string, Node>, name: string, b: Node, from: string, to: string)
    requires End(b, "from") == Some(from) && from in c && End(b, "to") == Some(to) && to in c
    ensures CrossOk(Dict(c), Dict(map[name := b]))
  {
  }

  // ---- a configuration in one file -----------------------------------------------------------------------------

  /** The top-level entries of a configuration in one file. */
  function TopEntries(cs: Node, bs: Node): map<string, Node> {
    map["gateway" := Mapping([]), "connectors" := cs, "bridges" := bs]
  }

  lemma TopIsAll(pairs: seq<(Node, Node)>, e: map<string, Node>)
    requires Loads(Mapping(pairs)) && LastWins(Flat(pairs)) == e
    ensures Top(Mapping(pairs)).Some?
    ensures Top(Mapping(pairs)).value == map k | k in e :: PyVal(e[k])
  {
  }

  lemma AloneTop(pairs: seq<(Node, Node)>, cs: Node, bs: Node)
    requires Loads(Mapping(pairs)) && LastWins(Flat(pairs)) == TopEntries(cs, bs)
    ensures Top(Mapping(pairs)).Some?
    ensures Top(Mapping(pairs)).value ==
      map["gateway" := Dict(map[]), "connectors" := PyVal(cs), "bridges" := PyVal(bs)]
  {
    TopIsAll(pairs, TopEntries(cs, bs));
    EmptyDict();
  }

  lemma EmptyDict()
    ensures PyVal(Mapping([])) == Dict(map[])
  {
    assert Flat([]) == [];
  }

  lemma NoIncludes(main: Node, k: string)
    requires Top(main).Some? && "includes" !in Top(main).value
    ensures Loaded(main, map[], k) == Some(At(Top(main).value, k))
  {
    assert Fragments([], map[]) == Some([]);
    assert Sections([], k) == [];
  }

  /** What the validator makes of it. */
  lemma AloneParts(pairs: seq<(Node, Node)>, cs: Node, bs: Node)
    requires Loads(Mapping(pairs)) && LastWins(Flat(pairs)) == TopEntries(cs, bs)
    ensures MergesWell(Mapping(pairs), map[])
    ensures Loaded(Mapping(pairs), map[], "connectors") == Some(PyVal(cs))
    ensures Loaded(Mapping(pairs), map[], "bridges") == Some(PyVal(bs))
  {
    AloneTop(pairs, cs, bs);
    NoIncludes(Mapping(pairs), "connectors");
    NoIncludes(Mapping(pairs), "bridges");
  }

  /** What the daemon makes of it. */
  lemma AloneRead(pairs: seq<(Node, Node)>, i: nat, j: nat)
    requires i < |pairs| && pairs[i].0 == Scalar("connectors") && pairs[i].1.Mapping?
    requires forall h :: 0 <= h < i ==> pairs[h].0 != Scalar("connectors")
    requires j < |pairs| && pairs[j].0 == Scalar("bridges") && pairs[j].1.Mapping?
    requires forall h :: 0 <= h < j ==> pairs[h].0 != Scalar("bridges")
    requires forall h :: 0 <= h < |pairs| ==> pairs[h].0 != Scalar("includes")
    ensures Table(Mapping(pairs), map[]) == Rows(pairs[i].1.pairs)
    ensures Pairs(Mapping(pairs), "bridges") == pairs[j].1.pairs
  {
    FirstAt(pairs, i);
    FirstAt(pairs, j);
    if First(pairs, "includes").Some? {
      var h := FirstIsThere(pairs, "includes");
    }
    var rows := Rows(pairs[i].1.pairs);
    assert rows + [] == rows;
  }

  function Config(cs: seq<(Node, Node)>, bs: seq<(Node, Node)>): Node {
    Mapping([Named("gateway", Mapping([])), Named("connectors", Mapping(cs)), Named("bridges", Mapping(bs))])
  }

  lemma ConfigIs(cs: seq<(Node, Node)>, bs: seq<(Node, Node)>)
    requires Loads(Mapping(cs)) && Loads(Mapping(bs))
    ensures MergesWell(Config(cs, bs), map[])
    ensures Loaded(Config(cs, bs), map[], "connectors") == Some(PyVal(Mapping(cs)))
    ensures Loaded(Config(cs, bs), map[], "bridges") == Some(PyVal(Mapping(bs)))
  {
    var g, c, b := Named("gateway", Mapping([])), Named("connectors", Mapping(cs)), Named("bridges", Mapping(bs));
    assert Loads(Mapping([]));
    LoadsThree(g, c, b);
    Three(g, c, b);
    AloneParts([g, c, b], c.1, b.1);
  }

  lemma ConfigRead(cs: seq<(Node, Node)>, bs: seq<(Node, Node)>)
    ensures Table(Config(cs, bs), map[]) == Rows(cs) && Pairs(Config(cs, bs), "bridges") == bs
  {
    AloneRead(Config(cs, bs).pairs, 1, 2);
  }

  /** It passes when what the validator keeps of the sections does. */
  lemma ConfigPasses(cs: seq<(Node, Node)>, bs: seq<(Node, Node)>)
    requires Loads(Mapping(cs)) && Loads(Mapping(bs)) && SectionsPass(PyVal(Mapping(cs)), PyVal(Mapping(bs)))
    ensures Passes(Config(cs, bs), map[])
    ensures Loaded(Config(cs, bs), map[], "connectors") == Some(PyVal(Mapping(cs)))
  {
    ConfigIs(cs, bs);
  }

  // ---- repeated keys --------------------------------------------------------------------------------------------

  lemma TwoOfOneName(name: string, x: Node, y: Node)
    requires name != "<<" && Loads(x) && Loads(y)
    ensures var n := Mapping([Named(name, x), Named(name, y)]);
      Loads(n) && PyVal(n) == Dict(map[name := y])
  {
    LoadsTwo(Named(name, x), Named(name, y));
    Two(Named(name, x), Named(name, y));
  }

  lemma OfOneName(name: string, x: Node)
    requires name != "<<" && Loads(x)
    ensures var n := Mapping([Named(name, x)]);
      Loads(n) && PyVal(n) == Dict(map[name := x])
  {
    LoadsOne(Named(name, x));
    One(Named(name, x));
  }

  /** A connector key repeated within a file passes, and then the two have different connectors. */
  lemma RepeatedKeyDiffers()
    ensures var main := Config([Named("a", Spi(FIRST)), Named("a", Spi(SECOND))], [Named("b", Link("a", "a"))]);
      && Passes(main, map[]) && FIRST != SECOND
      && Lookup(Table(main, map[]), "a") == Some(Spi(FIRST))
      && InPy(Loaded(main, map[], "connectors").value, "a") == Some(Spi(SECOND))
  {
    Devices();
    KeyTwice("a", "b", FIRST, SECOND);
  }

  lemma KeyTwice(name: string, id: string, d: string, e: string)
    requires IsName(name) && IsName(id) && name != "<<" && id != "<<" && !IsNullText(name)
    requires IsDevice(d) && IsDevice(e)
    ensures var main := Config([Named(name, Spi(d)), Named(name, Spi(e))], [Named(id, Link(name, name))]);
      && Passes(main, map[])
      && Lookup(Table(main, map[]), name) == Some(Spi(d))
      && InPy(Loaded(main, map[], "connectors").value, name) == Some(Spi(e))
  {
    var cs, bs := [Named(name, Spi(d)), Named(name, Spi(e))], [Named(id, Link(name, name))];
    SpiMeets(d);
    SpiMeets(e);
    TwoOfOneName(name, Spi(d), Spi(e));
    OneConnector(name, Spi(e));
    LinkMeets(name, name);
    OfOneName(id, Link(name, name));
    OneBridgePasses(map[name := Spi(e)], id, Link(name, name), name, name);
    ConfigPasses(cs, bs);
    ConfigRead(cs, bs);
    FirstFound(cs, 0);
  }

  /** A connector with two types. */
  function TwoTypes(device: string): Node {
    Mapping([Named("type", Scalar("mqtt")), Named("type", Scalar("spi")),
             Named("params", Mapping([Named("device", Scalar(device))]))])
  }

  lemma TwoTypesMeets(device: string)
    requires IsDevice(device)
    ensures SpiConnector(TwoTypes(device)) && Loads(TwoTypes(device))
    ensures GetText(TwoTypes(device), "type") == Some("mqtt")
  {
    var p, q, r := Named("type", Scalar("mqtt")), Named("type", Scalar("spi")),
      Named("params", Mapping([Named("device", Scalar(device))]));
    ParamsMeet(device);
    LoadsThree(p, q, r);
    Three(p, q, r);
  }

  /** A type repeated within a connector passes, and then the validator has checked another type than the
      daemon uses. */
  lemma RepeatedTypeDiffers()
    ensures var c := TwoTypes(FIRST);
      var main := Config([Named("a", c)], [Named("b", Link("a", "a"))]);
      && Passes(main, map[])
      && Lookup(Table(main, map[]), "a") == Some(c) && GetText(c, "type") == Some("mqtt")
      && InPy(Loaded(main, map[], "connectors").value, "a") == Some(c) && InPy(PyVal(c), "type") == Some(Scalar("spi"))
  {
    Devices();
    TypeTwice("a", "b", FIRST);
  }

  lemma TypeTwice(name: string, id: string, d: string)
    requires IsName(name) && IsName(id) && name != "<<" && id != "<<" && !IsNullText(name) && IsDevice(d)
    ensures var c := TwoTypes(d);
      var main := Config([Named(name, c)], [Named(id, Link(name, name))]);
      && Passes(main, map[])
      && Lookup(Table(main, map[]), name) == Some(c) && GetText(c, "type") == Some("mqtt")
      && InPy(Loaded(main, map[], "connectors").value, name) == Some(c) && InPy(PyVal(c), "type") == Some(Scalar("spi"))
  {
    TwoTypesMeets(d);
    OneOfEach(name, TwoTypes(d), id);
  }

  /** One connector, and one bridge from it to itself. */
  lemma OneOfEach(name: string, c: Node, id: string)
    requires IsName(name) && IsName(id) && name != "<<" && id != "<<" && !IsNullText(name)
    requires SpiConnector(c) && Loads(c)
    ensures var main := Config([Named(name, c)], [Named(id, Link(name, name))]);
      && Passes(main, map[])
      && Lookup(Table(main, map[]), name) == Some(c)
      && InPy(Loaded(main, map[], "connectors").value, name) == Some(c)
  {
    var cs, bs := [Named(name, c)], [Named(id, Link(name, name))];
    OfOneName(name, c);
    OneConnector(name, c);
    LinkMeets(name, name);
    OfOneName(id, Link(name, name));
    OneBridgePasses(map[name := c], id, Link(name, name), name, name);
    ConfigPasses(cs, bs);
    ConfigRead(cs, bs);
    FirstFound(cs, 0);
  }

  // ---- repeated sections ----------------------------------------------------------------------------------------

  function TwoSections(cs: seq<(Node, Node)>, ds: seq<(Node, Node)>, bs: seq<(Node, Node)>): Node {
    Mapping([Named("gateway", Mapping([])), Named("connectors", Mapping(cs)), Named("connectors", Mapping(ds)),
             Named("bridges", Mapping(bs))])
  }

  lemma TwoSectionsAre(cs: seq<(Node, Node)>, ds: seq<(Node, Node)>, bs: seq<(Node, Node)>)
    requires Loads(Mapping(cs)) && Loads(Mapping(ds)) && Loads(Mapping(bs))
    ensures MergesWell(TwoSections(cs, ds, bs), map[])
    ensures Loaded(TwoSections(cs, ds, bs), map[], "connectors") == Some(PyVal(Mapping(ds)))
    ensures Loaded(TwoSections(cs, ds, bs), map[], "bridges") == Some(PyVal(Mapping(bs)))
  {
    var g, c, d, b := Named("gateway", Mapping([])), Named("connectors", Mapping(cs)),
      Named("connectors", Mapping(ds)), Named("bridges", Mapping(bs));
    assert Loads(Mapping([]));
    LoadsFour(g, c, d, b);
    Four(g, c, d, b);
    AloneParts([g, c, d, b], d.1, b.1);
  }

  lemma TwoSectionsRead(cs: seq<(Node, Node)>, ds: seq<(Node, Node)>, bs: seq<(Node, Node)>)
    ensures Table(TwoSections(cs, ds, bs), map[]) == Rows(cs)
  {
    AloneRead(TwoSections(cs, ds, bs).pairs, 1, 3);
  }

  /** A repeated `connectors` section passes, and then the two do not even know the same names. */
  lemma RepeatedSectionDiffers()
    ensures var main := TwoSections([Named("a", Spi(FIRST))], [Named("c", Spi(SECOND))], [Named("b", Link("c", "c"))]);
      && Passes(main, map[])
      && Lookup(Table(main, map[]), "a").Some? && Lookup(Table(main, map[]), "c") == None
      && Loaded(main, map[], "connectors") == Some(Dict(map["c" := Spi(SECOND)]))
  {
    Devices();
    SectionTwiceDiffers("a", "c", "b", FIRST, SECOND);
  }

  lemma SectionTwiceDiffers(name: string, other: string, id: string, d: string, e: string)
    requires IsName(other) && IsName(id) && !IsNullText(other) && name != other
    requires name != "<<" && other != "<<" && id != "<<" && IsDevice(d) && IsDevice(e)
    ensures
      var main := TwoSections([Named(name, Spi(d))], [Named(other, Spi(e))], [Named(id, Link(other, other))]);
      && Passes(main, map[])
      && Lookup(Table(main, map[]), name).Some? && Lookup(Table(main, map[]), other) == None
      && Loaded(main, map[], "connectors") == Some(Dict(map[other := Spi(e)]))
  {
    SpiMeets(d);
    SpiMeets(e);
    SectionTwice(name, Spi(d), other, Spi(e), id);
    SectionTwiceRead(name, Spi(d), other, [Named(other, Spi(e))], [Named(id, Link(other, other))]);
  }

  lemma SectionTwice(name: string, c: Node, other: string, d: Node, id: string)
    requires IsName(other) && IsName(id) && !IsNullText(other) && name != "<<" && other != "<<" && id != "<<"
    requires Loads(c) && Loads(d) && SpiConnector(d)
    ensures var main := TwoSections([Named(name, c)], [Named(other, d)], [Named(id, Link(other, other))]);
      Passes(main, map[]) && Loaded(main, map[], "connectors") == Some(Dict(map[other := d]))
  {
    OfOneName(name, c);
    OfOneName(other, d);
    OneConnector(other, d);
    LinkMeets(other, other);
    OfOneName(id, Link(other, other));
    OneBridgePasses(map[other := d], id, Link(other, other), other, other);
    TwoSectionsAre([Named(name, c)], [Named(other, d)], [Named(id, Link(other, other))]);
  }

  lemma SectionTwiceRead(name: string, c: Node, other: string, ds: seq<(Node, Node)>, bs: seq<(Node, Node)>)
    requires name != other && c.Mapping?
    ensures var table := Table(TwoSections([Named(name, c)], ds, bs), map[]);
      Lookup(table, name).Some? && Lookup(table, other) == None
  {
    TwoSectionsRead([Named(name, c)], ds, bs);
    FirstFound([Named(name, c)], 0);
    NoRow([Named(name, c)], other);
  }

  // ---- bridges --------------------------------------------------------------------------------------------------

  /** The validator looks at the last of several bridges with the same key; the daemon loads them all. Here
      the configuration passes, and the first of the two bridges does not resolve. */
  lemma RepeatedBridgeUnchecked()
    ensures var main := Config([Named("a", Spi(FIRST))], [Named("b", Mapping([])), Named("b", Link("a", "a"))]);
      && Passes(main, map[])
      && Bridge("b", None, None) in BridgeRows(Pairs(main, "bridges"))
      && !Resolves(Table(main, map[]), Bridge("b", None, None))
  {
    Devices();
    BridgeTwiceDiffers("a", "b", FIRST);
  }

  lemma BridgeTwiceDiffers(name: string, id: string, d: string)
    requires IsName(name) && IsName(id) && name != "<<" && id != "<<" && !IsNullText(name) && IsDevice(d)
    ensures
      var main := Config([Named(name, Spi(d))], [Named(id, Mapping([])), Named(id, Link(name, name))]);
      Passes(main, map[]) && Bridge(id, None, None) in BridgeRows(Pairs(main, "bridges"))
  {
    SpiMeets(d);
    BridgeTwice(name, Spi(d), id);
    BridgeTwiceRead([Named(name, Spi(d))], id, Link(name, name));
  }

  lemma BridgeTwice(name: string, c: Node, id: string)
    requires IsName(name) && IsName(id) && name != "<<" && id != "<<" && !IsNullText(name)
    requires SpiConnector(c) && Loads(c)
    ensures Passes(Config([Named(name, c)], [Named(id, Mapping([])), Named(id, Link(name, name))]), map[])
  {
    OfOneName(name, c);
    OneConnector(name, c);
    LinkMeets(name, name);
    assert Loads(Mapping([]));
    TwoOfOneName(id, Mapping([]), Link(name, name));
    OneBridgePasses(map[name := c], id, Link(name, name), name, name);
    ConfigPasses([Named(name, c)], [Named(id, Mapping([])), Named(id, Link(name, name))]);
  }

  lemma BridgeTwiceRead(cs: seq<(Node, Node)>, id: string, b: Node)
    ensures var main := Config(cs, [Named(id, Mapping([])), Named(id, b)]);
      Bridge(id, None, None) in BridgeRows(Pairs(main, "bridges"))
  {
    var bs := [Named(id, Mapping([])), Named(id, b)];
    ConfigRead(cs, bs);
    assert First([], "from") == None && First([], "to") == None;
    assert BridgeRow(id, Mapping([])) == Bridge(id, None, None);
    BridgeRowThere(bs, 0);
  }

  // ---- includes ---------------------------------------------------------------------------------------------------

  /** A file with connectors and one include. */
  function Including(cs: seq<(Node, Node)>, n: string): Node {
    Mapping([Named("gateway", Mapping([])), Named("connectors", Mapping(cs)),
             Named("includes", Sequence([Scalar(n)]))])
  }

  function BridgesOnly(bs: seq<(Node, Node)>): Node {
    Mapping([Named("bridges", Mapping(bs))])
  }

  lemma IncludingTop(cs: seq<(Node, Node)>, n: string)
    requires Loads(Mapping(cs))
    ensures Top(Including(cs, n)).Some?
    ensures Top(Including(cs, n)).value ==
      map["gateway" := Dict(map[]), "connectors" := PyVal(Mapping(cs)), "includes" := Other(Sequence([Scalar(n)]))]
  {
    var g, c, i := Named("gateway", Mapping([])), Named("connectors", Mapping(cs)),
      Named("includes", Sequence([Scalar(n)]));
    assert Loads(Mapping([])) && Loads(i.1);
    LoadsThree(g, c, i);
    Three(g, c, i);
    EmptyDict();
  }

  lemma BridgesOnlyTop(bs: seq<(Node, Node)>)
    requires Loads(Mapping(bs))
    ensures Top(BridgesOnly(bs)).Some?
    ensures Top(BridgesOnly(bs)).value == map["bridges" := PyVal(Mapping(bs))]
  {
    LoadsOne(Named("bridges", Mapping(bs)));
    One(Named("bridges", Mapping(bs)));
  }

  lemma OneText(text: string)
    ensures Includes(Other(Sequence([Scalar(text)]))) == Some([text])
  {
    var items := [Scalar(text)];
    assert items[1..] == [] && [text] + [] == [text];
    assert Texts(items[1..]) == Some([]);
    assert Texts(items) == Some([text]);
  }

  lemma OneFragment(main: Node, frag: Node, n: string, k: string)
    requires Top(main).Some? && Top(frag).Some?
    requires Includes(At(Top(main).value, "includes")) == Some([n])
    ensures Loaded(main, map[n := frag], k) == Join(At(Top(main).value, k), At(Top(frag).value, k))
  {
    var files := map[n := frag];
    FoldStep(At(Top(main).value, k), [n], files, k);
    assert [n][1..] == [];
    assert Fragments([], files) == Some([]) && Sections([], k) == [];
  }

  lemma IncludingIs(cs: seq<(Node, Node)>, bs: seq<(Node, Node)>, n: string)
    requires Loads(Mapping(cs)) && Loads(Mapping(bs))
    ensures MergesWell(Including(cs, n), map[n := BridgesOnly(bs)])
    ensures Loaded(Including(cs, n), map[n := BridgesOnly(bs)], "connectors") == Some(PyVal(Mapping(cs)))
    ensures Loaded(Including(cs, n), map[n := BridgesOnly(bs)], "bridges") == Some(PyVal(Mapping(bs)))
  {
    IncludingTop(cs, n);
    BridgesOnlyTop(bs);
    OneText(n);
    OneFragment(Including(cs, n), BridgesOnly(bs), n, "connectors");
    OneFragment(Including(cs, n), BridgesOnly(bs), n, "bridges");
    JoinedToNothing(PyVal(Mapping(bs)));
  }

  lemma JoinedToNothing(v: Py)
    requires v.Dict?
    ensures Join(Null, v) == Some(v)
  {
    assert map[] + v.entries == v.entries;
  }

  lemma IncludingRead(cs: seq<(Node, Node)>, n: string)
    ensures BridgeRows(Pairs(Including(cs, n), "bridges")) == []
  {
    var pairs := Including(cs, n).pairs;
    if First(pairs, "bridges").Some? {
      var j := FirstIsThere(pairs, "bridges");
    }
  }

  /** A configuration passes with one bridge, in an included file, and the daemon loads none. */
  lemma IncludedBridgeLost()
    ensures var main := Including([Named("a", Spi(FIRST))], "f");
      var files := map["f" := BridgesOnly([Named("b", Link("a", "a"))])];
      && Passes(main, files)
      && Loaded(main, files, "bridges") == Some(Dict(map["b" := Link("a", "a")]))
      && BridgeRows(Pairs(main, "bridges")) == []
  {
    Devices();
    BridgeIncluded("a", "b", "f", FIRST);
  }

  lemma BridgeIncluded(name: string, id: string, n: string, d: string)
    requires IsName(name) && IsName(id) && name != "<<" && id != "<<" && !IsNullText(name) && IsDevice(d)
    ensures var main := Including([Named(name, Spi(d))], n);
      var files := map[n := BridgesOnly([Named(id, Link(name, name))])];
      && Passes(main, files)
      && Loaded(main, files, "bridges") == Some(Dict(map[id := Link(name, name)]))
      && BridgeRows(Pairs(main, "bridges")) == []
  {
    var cs, bs := [Named(name, Spi(d))], [Named(id, Link(name, name))];
    SpiMeets(d);
    OfOneName(name, Spi(d));
    OneConnector(name, Spi(d));
    LinkMeets(name, name);
    OfOneName(id, Link(name, name));
    OneBridgePasses(map[name := Spi(d)], id, Link(name, name), name, name);
    IncludingIs(cs, bs, n);
    IncludingRead(cs, n);
  }

  // ---- merge keys -----------------------------------------------------------------------------------------------

  /** A pair under a merge key, and one beside it. */
  lemma InheritedName(x: (Node, Node), y: (Node, Node))
    requires Plain(x) && Plain(y) && Loads(x.1) && Loads(y.1)
    ensures var n := Mapping([Named("<<", Mapping([x])), y]);
      Loads(n) && PyVal(n) == Dict(map[x.0.text := x.1][y.0.text := y.1])
  {
    LoadsOne(x);
    LoadsTwo(Named("<<", Mapping([x])), y);
    Behind(x, y);
    Two(x, y);
  }

  lemma TwoConnectors(name: string, c: Node, other: string, d: Node)
    requires IsName(name) && IsName(other) && SpiConnector(c) && SpiConnector(d)
    ensures Connectors(map[name := c][other := d])
  {
    assert other in map[name := c][other := d];
  }

  /** A connector that comes by a merge key passes, and the daemon does not know it: it has a connector named
      `<<` instead, and the bridge that was checked does not resolve. */
  lemma MergedConnectorLost()
    ensures var main := Config([Named("<<", Mapping([Named("a", Spi(FIRST))])), Named("c", Spi(SECOND))],
                               [Named("b", Link("a", "c"))]);
      && Passes(main, map[])
      && "a" in Entries(Loaded(main, map[], "connectors").value) && Lookup(Table(main, map[]), "a") == None
      && Lookup(Table(main, map[]), "<<").Some?
      && BridgeRows(Pairs(main, "bridges")) == [Bridge("b", Some("a"), Some("c"))]
      && !Resolves(Table(main, map[]), Bridge("b", Some("a"), Some("c")))
  {
    Devices();
    InheritingDiffers("a", "c", "b", FIRST, SECOND);
  }

  lemma InheritingDiffers(name: string, other: string, id: string, d: string, e: string)
    requires IsName(name) && IsName(other) && IsName(id) && !IsNullText(name) && !IsNullText(other) && name != other
    requires name != "<<" && other != "<<" && id != "<<" && IsDevice(d) && IsDevice(e)
    ensures var main := Config([Named("<<", Mapping([Named(name, Spi(d))])), Named(other, Spi(e))],
                               [Named(id, Link(name, other))]);
      && Passes(main, map[])
      && name in Entries(Loaded(main, map[], "connectors").value) && Lookup(Table(main, map[]), name) == None
      && Lookup(Table(main, map[]), "<<").Some?
      && BridgeRows(Pairs(main, "bridges")) == [Bridge(id, Some(name), Some(other))]
  {
    SpiMeets(d);
    SpiMeets(e);
    Inheriting(name, Spi(d), other, Spi(e), id);
    InheritingRead(name, Mapping([Named(name, Spi(d))]), other, Spi(e), id);
  }

  lemma Inheriting(name: string, c: Node, other: string, d: Node, id: string)
    requires IsName(name) && IsName(other) && IsName(id) && !IsNullText(name) && !IsNullText(other)
    requires name != "<<" && other != "<<" && id != "<<"
    requires SpiConnector(c) && Loads(c) && SpiConnector(d) && Loads(d)
    ensures var main := Config([Named("<<", Mapping([Named(name, c)])), Named(other, d)],
                               [Named(id, Link(name, other))]);
      Passes(main, map[]) && name in Entries(Loaded(main, map[], "connectors").value)
  {
    InheritedName(Named(name, c), Named(other, d));
    TwoConnectors(name, c, other, d);
    LinkMeets(name, other);
    OfOneName(id, Link(name, other));
    OneBridgePasses(map[name := c][other := d], id, Link(name, other), name, other);
    ConfigPasses([Named("<<", Mapping([Named(name, c)])), Named(other, d)], [Named(id, Link(name, other))]);
  }

  lemma InheritingRead(name: string, merged: Node, other: string, d: Node, id: string)
    requires name != other && name != "<<" && merged.Mapping?
    ensures var main := Config([Named("<<", merged), Named(other, d)], [Named(id, Link(name, other))]);
      && Lookup(Table(main, map[]), name) == None && Lookup(Table(main, map[]), "<<").Some?
      && BridgeRows(Pairs(main, "bridges")) == [Bridge(id, Some(name), Some(other))]
  {
    var cs := [Named("<<", merged), Named(other, d)];
    ConfigRead(cs, [Named(id, Link(name, other))]);
    FirstFound(cs, 0);
    NoRow(cs, name);
    OneRow(id, name, other);
  }

  lemma OneRow(id: string, from: string, to: string)
    ensures BridgeRows([Named(id, Link(from, to))]) == [Bridge(id, Some(from), Some(to))]
  {
    var b := Link(from, to);
    FirstAt(b.pairs, 0);
    FirstAt(b.pairs, 1);
    assert [Named(id, b)][..0] == [];
    assert [] + [BridgeRow(id, b)] == [BridgeRow(id, b)];
  }

  /** A bridge whose `from` comes by a merge key. */
  function HalfLink(from: string, to: string): Node {
    Mapping([Named("<<", Mapping([Named("from", Scalar(from))])), Named("to", Scalar(to))])
  }

  lemma HalfLinkMeets(from: string, to: string)
    requires IsName(from) && IsName(to) && !IsNullText(from) && !IsNullText(to)
    ensures PlainBridge(HalfLink(from, to)) && Loads(HalfLink(from, to))
    ensures End(HalfLink(from, to), "from") == Some(from) && End(HalfLink(from, to), "to") == Some(to)
    ensures GetText(HalfLink(from, to), "from") == None
  {
    InheritedName(Named("from", Scalar(from)), Named("to", Scalar(to)));
    var b := HalfLink(from, to);
    if First(b.pairs, "from").Some? {
      var j := FirstIsThere(b.pairs, "from");
    }
  }

  /** It passes, and the daemon reads no `from`, so that the bridge does not resolve. */
  lemma MergedEndLost()
    ensures var main := Config([Named("a", Spi(FIRST))], [Named("b", HalfLink("a", "a"))]);
      && Passes(main, map[])
      && forall row :: row in BridgeRows(Pairs(main, "bridges")) ==> !Resolves(Table(main, map[]), row)
  {
    Devices();
    HalfLinkDiffers("a", "b", FIRST);
  }

  lemma HalfLinkDiffers(name: string, id: string, d: string)
    requires IsName(name) && IsName(id) && name != "<<" && id != "<<" && !IsNullText(name) && IsDevice(d)
    ensures var main := Config([Named(name, Spi(d))], [Named(id, HalfLink(name, name))]);
      && Passes(main, map[])
      && forall row :: row in BridgeRows(Pairs(main, "bridges")) ==> !Resolves(Table(main, map[]), row)
  {
    SpiMeets(d);
    HalfLinkPasses(name, Spi(d), id);
    HalfLinkRead([Named(name, Spi(d))], name, id);
  }

  lemma HalfLinkPasses(name: string, c: Node, id: string)
    requires IsName(name) && IsName(id) && name != "<<" && id != "<<" && !IsNullText(name)
    requires SpiConnector(c) && Loads(c)
    ensures Passes(Config([Named(name, c)], [Named(id, HalfLink(name, name))]), map[])
  {
    OfOneName(name, c);
    OneConnector(name, c);
    HalfLinkMeets(name, name);
    OfOneName(id, HalfLink(name, name));
    OneBridgePasses(map[name := c], id, HalfLink(name, name), name, name);
    ConfigPasses([Named(name, c)], [Named(id, HalfLink(name, name))]);
  }

  lemma HalfLinkRead(cs: seq<(Node, Node)>, name: string, id: string)
    requires IsName(name) && !IsNullText(name)
    ensures forall row ::
      row in BridgeRows(Pairs(Config(cs, [Named(id, HalfLink(name, name))]), "bridges")) ==> row.from == None
  {
    var bs := [Named(id, HalfLink(name, name))];
    HalfLinkMeets(name, name);
    ConfigRead(cs, bs);
    forall row | row in BridgeRows(bs) ensures row.from == None {
      var i := BridgeRowsFrom(bs, row);
    }
  }

  /** A main file with nothing in it is taken for an empty dictionary, and so passes the merge. */
  lemma EmptyMainMerges(main: Node, files: map<string, Node>)
    requires main == NullScalar || main == Scalar("") || main == Scalar("~") || main == Sequence([])
    ensures Accepts(main, files) && Loaded(main, files, "connectors") == Some(Null)
  {
    assert Fragments([], files) == Some([]);
    assert Sections([], "connectors") == [] && Sections([], "bridges") == [];
  }

  // ---- what the checks report -------------------------------------------------------------------------------------

  /** One connector and one bridge: what is reported is exactly the ends that are not that connector, each under
      its own name. */
  lemma DanglingEndsReported(name: string, c: Node, id: string, from: string, to: string, f: Finding)
    requires !IsNullText(from) && !IsNullText(to)
    ensures var doc := map["connectors" := Dict(map[name := c]), "bridges" := Dict(map[id := Link(from, to)])];
      Reported(doc, f) <==> (from != name && f == UnknownFrom(id)) || (to != name && f == UnknownTo(id))
  {
    LinkEnds(from, to);
  }

  lemma LinkEnds(from: string, to: string)
    requires !IsNullText(from) && !IsNullText(to)
    ensures End(Link(from, to), "from") == Some(from) && End(Link(from, to), "to") == Some(to)
  {
    Two(Named("from", Scalar(from)), Named("to", Scalar(to)));
  }
}
