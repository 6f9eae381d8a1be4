/** The daemon's own configuration loader: tables that grow as files are read, and first-match lookup. */
module ConfigLoader {
  import opened Basics
  import opened Yaml

  /** A row of the connector table: the name and the node its parameters were read from. */
  datatype Conn = Conn(name: string, node: Node)

  datatype Bridge = Bridge(name: string, from: Option<string>, to: Option<string>)

  // ---- the tables as values -----------------------------------------------------------------------------

  predicate IsEntry(p: (Node, Node)) {
    p.0.Scalar? && p.1.Mapping?
  }

  /** The rows a `connectors` mapping adds: one for every pair with a scalar key and a mapping value. */
  function Rows(pairs: seq<(Node, Node)>): seq<Conn> {
    if pairs == [] then []
    else
      var p := pairs[|pairs| - 1];
      Rows(pairs[..|pairs| - 1]) + (if IsEntry(p) then [Conn(p.0.text, p.1)] else [])
  }

  function BridgeRow(name: string, b: Node): Bridge {
    Bridge(name, GetText(b, "from"), GetText(b, "to"))
  }

  function BridgeRows(pairs: seq<(Node, Node)>): seq<Bridge> {
    if pairs == [] then []
    else
      var p := pairs[|pairs| - 1];
      BridgeRows(pairs[..|pairs| - 1]) + (if IsEntry(p) then [BridgeRow(p.0.text, p.1)] else [])
  }

  function PairsOf(n: Option<Node>): seq<(Node, Node)> {
    if n.Some? && n.value.Mapping? then n.value.pairs else []
  }

  /** The pairs of a section of a file; none when it is absent or no mapping. */
  function Pairs(file: Node, section: string): seq<(Node, Node)> {
    PairsOf(Get(file, section))
  }

  /** The rows included files add; a file that cannot be read adds none. */
  function IncludedRows(names: seq<string>, files: map<string, Node>): seq<Conn> {
    if names == [] then []
    else (if names[0] in files then Rows(Pairs(files[names[0]], "connectors")) else [])
         + IncludedRows(names[1..], files)
  }

  /** The texts among the items of `includes`. */
  function Names(items: seq<Node>): seq<string> {
    if items == [] then []
    else (if items[0].Scalar? then [items[0].text] else []) + Names(items[1..])
  }

  lemma NamesNext(items: seq<Node>, i: nat)
    requires i < |items|
    ensures Names(items[i..]) == (if items[i].Scalar? then [items[i].text] else []) + Names(items[i + 1..])
    ensures !items[i].Scalar? ==> Names(items[i..]) == Names(items[i + 1..])
  {
    assert items[i..][1..] == items[i + 1..];
    assert [] + Names(items[i + 1..]) == Names(items[i + 1..]);
  }

  function NamesOf(n: Option<Node>): seq<string> {
    if n.Some? && n.value.Sequence? then Names(n.value.items) else []
  }

  function IncludeNames(main: Node): seq<string> {
    NamesOf(Get(main, "includes"))
  }

  /** The whole connector table. */
  function Table(main: Node, files: map<string, Node>): seq<Conn> {
    Rows(Pairs(main, "connectors")) + IncludedRows(IncludeNames(main), files)
  }

  /** First-match lookup. */
  function Lookup(table: seq<Conn>, name: string): Option<Node> {
    if table == [] then None
    else if table[0].name == name then Some(table[0].node)
    else Lookup(table[1..], name)
  }

  /** The check at the head of preparing a bridge: both ends are given and found. */
  predicate Resolves(table: seq<Conn>, b: Bridge) {
    && b.from.Some? && Lookup(table, b.from.value).Some?
    && b.to.Some? && Lookup(table, b.to.value).Some?
  }

  // ---- the loader ---------------------------------------------------------------------------------------

  class Config {
    var connectors: seq<Conn>
    var bridges: seq<Bridge>
    var includes: seq<string>

    constructor ()
      ensures connectors == [] && bridges == [] && includes == []
    {
      connectors, bridges, includes := [], [], [];
    }

    method ParseConnectorsMap(conns: Option<Node>)
      modifies this`connectors
      ensures connectors == old(connectors) + Rows(PairsOf(conns))
    {
      if conns == None || !conns.value.Mapping? {
        return;
      }
      var pairs := conns.value.pairs;
      var i := 0;
      while i < |pairs|
        invariant 0 <= i <= |pairs|
        invariant connectors == old(connectors) + Rows(pairs[..i])
      {
        assert pairs[..i + 1][..i] == pairs[..i];
        if IsEntry(pairs[i]) {
          connectors := connectors + [Conn(pairs[i].0.text, pairs[i].1)];
        }
        i := i + 1;
      }
      assert pairs[..i] == pairs;
    }

    method ParseBridges(br: Option<Node>)
      requires bridges == []
      modifies this`bridges
      ensures bridges == BridgeRows(PairsOf(br))
    {
      if br == None || !br.value.Mapping? {
        return;
      }
      var pairs := br.value.pairs;
      bridges := [];
      var i := 0;
      while i < |pairs|
        invariant 0 <= i <= |pairs|
        invariant bridges == BridgeRows(pairs[..i])
      {
        assert pairs[..i + 1][..i] == pairs[..i];
        if IsEntry(pairs[i]) {
          var row := ParseBridgeOne(pairs[i].0.text, pairs[i].1);
          bridges := bridges + [row];
        }
        i := i + 1;
      }
      assert pairs[..i] == pairs;
    }

    static method ParseBridgeOne(name: string, b: Node) returns (row: Bridge)
      ensures row == BridgeRow(name, b)
    {
      row := Bridge(name, None, None);
      var v := Find(b, "from");
      if v.Some? && v.value.Scalar? {
        row := row.(from := Some(v.value.text));
      }
      v := Find(b, "to");
      if v.Some? && v.value.Scalar? {
        row := row.(to := Some(v.value.text));
      }
    }

    method ParseIncludes(incs: Option<Node>)
      modifies this`includes
      ensures includes == old(includes) + NamesOf(incs)
    {
      if incs == None || !incs.value.Sequence? {
        return;
      }
      var items := incs.value.items;
      var i := 0;
      while i < |items|
        invariant 0 <= i <= |items|
        invariant includes + Names(items[i..]) == old(includes) + Names(items)
      {
        NamesNext(items, i);
        if items[i].Scalar? {
          ConcatAssoc(includes, [items[i].text], Names(items[i + 1..]));
          includes := includes + [items[i].text];
        }
        i := i + 1;
      }
    }

    /** Reads the main file and then the connectors of every include that can be read. */
    method ConfigLoadFile(main: Option<Node>, files: map<string, Node>) returns (rc: int)
      modifies this
      ensures rc == if main.Some? && main.value.Mapping? then 0 else -1
      ensures rc == 0 ==> connectors == Table(main.value, files)
      ensures rc == 0 ==> bridges == BridgeRows(Pairs(main.value, "bridges"))
      ensures rc == 0 ==> includes == IncludeNames(main.value)
    {
      connectors, bridges, includes := [], [], [];
      if main == None || !main.value.Mapping? {
        return -1;
      }
      ParseSections(main.value);
      LoadIncludes(files);
      rc := 0;
    }

    method ParseSections(main: Node)
      requires connectors == [] && bridges == [] && includes == []
      modifies this
      ensures connectors == Rows(Pairs(main, "connectors"))
      ensures bridges == BridgeRows(Pairs(main, "bridges"))
      ensures includes == IncludeNames(main)
    {
      var v := Find(main, "includes");
      ParseIncludes(v);
      v := Find(main, "connectors");
      ParseConnectorsMap(v);
      v := Find(main, "bridges");
      ParseBridges(v);
    }

    method LoadIncludes(files: map<string, Node>)
      modifies this`connectors
      ensures connectors == old(connectors) + IncludedRows(includes, files)
    {
      var i := 0;
      while i < |includes|
        invariant 0 <= i <= |includes|
        invariant connectors + IncludedRows(includes[i..], files) == old(connectors) + IncludedRows(includes, files)
      {
        assert includes[i..][1..] == includes[i + 1..];
        if includes[i] in files {
          var file := files[includes[i]];
          ConcatAssoc(connectors, Rows(Pairs(file, "connectors")), IncludedRows(includes[i + 1..], files));
          var v := Find(file, "connectors");
          ParseConnectorsMap(v);
        }
        i := i + 1;
      }
    }

    method FindConnector(name: string) returns (r: Option<Node>)
      ensures r == Lookup(connectors, name)
    {
      var i := 0;
      while i < |connectors|
        invariant 0 <= i <= |connectors|
        invariant Lookup(connectors, name) == Lookup(connectors[i..], name)
      {
        if connectors[i].name == name {
          return Some(connectors[i].node);
        }
        i := i + 1;
      }
      return None;
    }
  }
}
