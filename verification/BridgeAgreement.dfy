/** Which bridges the daemon loads, compared with those the validator checks. */
module BridgeAgreement {
  import opened Basics
  import opened Yaml
  import opened ConfigValidator
  import opened ConfigLoader
  import opened ConfigAgreement

  // ---- rows and pairs -------------------------------------------------------------------------------------

  lemma {:induction false} BridgeRowsFrom(pairs: seq<(Node, Node)>, row: Bridge) returns (i: nat)
    requires row in BridgeRows(pairs)
    ensures i < |pairs| && IsEntry(pairs[i]) && row == BridgeRow(pairs[i].0.text, pairs[i].1)
    ensures pairs[i].0.Scalar? && pairs[i].1.Mapping?
    decreases |pairs|
  {
    var n := |pairs| - 1;
    if row in BridgeRows(pairs[..n]) {
      i := BridgeRowsFrom(pairs[..n], row);
    } else {
      i := n;
    }
  }

  lemma {:induction false} BridgeRowThere(pairs: seq<(Node, Node)>, i: nat)
    requires i < |pairs| && IsEntry(pairs[i])
    ensures BridgeRow(pairs[i].0.text, pairs[i].1) in BridgeRows(pairs)
    decreases |pairs|
  {
    var n := |pairs| - 1;
    if i < n {
      BridgeRowThere(pairs[..n], i);
    }
  }

  /** The rows keep the order of the pairs. */
  lemma {:induction false} BridgeRowsConcat(ps: seq<(Node, Node)>, qs: seq<(Node, Node)>)
    ensures BridgeRows(ps + qs) == BridgeRows(ps) + BridgeRows(qs)
    decreases |qs|
  {
    if qs == [] {
      assert ps + qs == ps && BridgeRows(ps) + [] == BridgeRows(ps);
    } else {
      var n := |qs| - 1;
      var last := if IsEntry(qs[n]) then [BridgeRow(qs[n].0.text, qs[n].1)] else [];
      assert (ps + qs)[..|ps + qs| - 1] == ps + qs[..n];
      BridgeRowsConcat(ps, qs[..n]);
      ConcatAssoc(BridgeRows(ps), BridgeRows(qs[..n]), last);
    }
  }

  /** The names of the bridges the daemon loads. */
  function BridgeNames(main: Node): set<string> {
    set row | row in BridgeRows(Pairs(main, "bridges")) :: row.name
  }

  lemma BridgeNamesAre(main: Node, name: string)
    ensures name in BridgeNames(main) <==> HasEntry(Pairs(main, "bridges"), name)
  {
    var pairs := Pairs(main, "bridges");
    if name in BridgeNames(main) {
      var row :| row in BridgeRows(pairs) && row.name == name;
      var i := BridgeRowsFrom(pairs, row);
      assert pairs[i].0 == Scalar(name);
    }
    if HasEntry(pairs, name) {
      var i :| 0 <= i < |pairs| && IsEntry(pairs[i]) && pairs[i].0 == Scalar(name);
      BridgeRowThere(pairs, i);
    }
  }

  // ---- where the daemon finds the ends ----------------------------------------------------------------------

  /** For any files whatever, a bridge resolves if and only if both its ends are given and each of them is the
      key of a usable pair in the main file's or an included file's first `connectors` section. */
  lemma ResolvesExactly(main: Node, files: map<string, Node>, row: Bridge)
    ensures Resolves(Table(main, files), row) <==>
      && row.from.Some? && Defined(Sources(main, files), row.from.value)
      && row.to.Some? && Defined(Sources(main, files), row.to.value)
  {
    TableIsSources(main, files);
    if row.from.Some? {
      RowsAllHave(Sources(main, files), row.from.value);
    }
    if row.to.Some? {
      RowsAllHave(Sources(main, files), row.to.value);
    }
  }

  /** For a validated configuration that is the same as both ends being merged connectors, for all bridges
      whatever, if and only if no section brings names by merge keys. */
  lemma ResolvesWhenKnown(main: Node, files: map<string, Node>)
    requires Validated(main, files)
    ensures var c := Loaded(main, files, "connectors").value;
      (forall row :: Resolves(Table(main, files), row) <==> Knows(c, row.from) && Knows(c, row.to)) <==>
        AllNamesHarmless(Sources(main, files))
  {
    LookupsAgree(main, files);
    var c := Loaded(main, files, "connectors").value;
    if forall row :: Resolves(Table(main, files), row) <==> Knows(c, row.from) && Knows(c, row.to) {
      forall name ensures Lookup(Table(main, files), name).Some? <==> name in Entries(c) {
        var row := Bridge("", Some(name), Some(name));
        assert Resolves(Table(main, files), row) <==> Knows(c, row.from) && Knows(c, row.to);
      }
    }
  }

  // ---- checked bridges resolve ------------------------------------------------------------------------------

  /** The end the validator checks is the one the daemon reads. */
  lemma SameEnd(b: Node, k: string)
    requires Settled(b, k) && End(b, k).Some?
    ensures GetText(b, k) == End(b, k)
  {
    KeptValue(b.pairs, k);
  }

  /** Every bridge in the section is the one the validator checks, and so are its ends. */
  predicate BridgesSettled(pairs: seq<(Node, Node)>) {
    forall i :: 0 <= i < |pairs| && IsEntry(pairs[i]) ==>
      && LastValue(Flat(pairs), pairs[i].0.text) == Some(pairs[i].1)
      && Settled(pairs[i].1, "from") && Settled(pairs[i].1, "to")
  }

  /** The name is a key of some section itself, and not only of what a merge key brings. */
  predicate Written(pss: seq<seq<(Node, Node)>>, name: string) {
    exists i :: 0 <= i < |pss| && HasKey(pss[i], name)
  }

  /** A merged connector is found exactly when it is written in a section. */
  lemma WrittenIsFound(main: Node, files: map<string, Node>, name: string)
    requires Validated(main, files) && name in Entries(Loaded(main, files, "connectors").value)
    ensures Defined(Sources(main, files), name) <==> Written(Sources(main, files), name)
  {
    var pss := Sources(main, files);
    var vs := SameViews(main, files);
    NotMergeKey(pss, vs, name);
    forall i | 0 <= i < |pss| ensures HasEntry(pss[i], name) <==> HasKey(pss[i], name) {
      KeptValue(pss[i], name);
      if HasKey(pss[i], name) {
        JoinAllTakes(Null, vs, i, name);
      }
      SameNames(pss[i], name);
      RowsHave(pss[i], name);
    }
  }

  lemma NotMergeKey(pss: seq<seq<(Node, Node)>>, vs: seq<Py>, name: string)
    requires AllSame(pss, vs) && JoinAll(Null, vs).Some? && name in Entries(JoinAll(Null, vs).value)
    ensures name != "<<"
  {
    forall i | 0 <= i < |vs| ensures "<<" !in Entries(vs[i]) {
      KeptValue(pss[i], "<<");
    }
    NeverMerged(Null, vs);
  }

  /** Both ends of a bridge loaded are given, and known to the validator, when the main file's bridges are
      settled. */
  lemma LoadedIsChecked(main: Node, files: map<string, Node>, row: Bridge)
    requires Accepts(main, files) && Settled(main, "includes")
    requires Settled(main, "bridges") && BridgesSettled(Pairs(main, "bridges"))
    requires CrossOk(Loaded(main, files, "connectors").value, Loaded(main, files, "bridges").value)
    requires row in BridgeRows(Pairs(main, "bridges"))
    ensures var c := OrEmpty(Loaded(main, files, "connectors").value);
      Knows(c, row.from) && Knows(c, row.to)
  {
    var pairs := Pairs(main, "bridges");
    var i := BridgeRowsFrom(pairs, row);
    NotEmptyList(main, files);
    BridgeKept(main, files, i);
    SameEnd(pairs[i].1, "from");
    SameEnd(pairs[i].1, "to");
  }

  /** An empty list of bridges has no rows. */
  lemma NotEmptyList(main: Node, files: map<string, Node>)
    requires Accepts(main, files) && Settled(main, "includes") && Settled(main, "bridges")
    requires !OrEmpty(Loaded(main, files, "bridges").value).Other? && Pairs(main, "bridges") != []
    ensures !Loaded(main, files, "bridges").value.Other?
  {
    LoadedParts(main, files, "bridges");
    SameTop(main, "bridges");
    if Loaded(main, files, "bridges").value == Other(Sequence([])) {
      ListStays(At(Top(main).value, "bridges"), Sections(Fragments(IncludeNames(main), files).value, "bridges"));
    }
  }

  lemma {:induction false} ListStays(base: Py, vs: seq<Py>)
    requires JoinAll(base, vs).Some? && JoinAll(base, vs).value.Other?
    ensures base.Other?
    decreases |vs|
  {
    if vs != [] {
      ListStays(Join(base, vs[0]).value, vs[1..]);
    }
  }

  /** A bridge the daemon loads from a configuration that passes the validator resolves both its ends if and
      only if these are written in a section, when the main file's bridges are settled; so always when no
      section brings names by merge keys. */
  lemma BridgesResolve(main: Node, files: map<string, Node>, row: Bridge)
    requires Validated(main, files) && Settled(main, "bridges") && BridgesSettled(Pairs(main, "bridges"))
    requires CrossOk(Loaded(main, files, "connectors").value, Loaded(main, files, "bridges").value)
    requires row in BridgeRows(Pairs(main, "bridges"))
    ensures row.from.Some? && row.to.Some?
    ensures Resolves(Table(main, files), row) <==>
      Written(Sources(main, files), row.from.value) && Written(Sources(main, files), row.to.value)
    ensures AllNamesHarmless(Sources(main, files)) ==> Resolves(Table(main, files), row)
  {
    LoadedIsChecked(main, files, row);
    ResolvesExactly(main, files, row);
    WrittenIsFound(main, files, row.from.value);
    WrittenIsFound(main, files, row.to.value);
    if AllNamesHarmless(Sources(main, files)) {
      ResolvesWhenKnown(main, files);
    }
  }

  /** The main file's section, as the validator sees it, is kept by the merge. */
  lemma MainKept(main: Node, files: map<string, Node>)
    requires Accepts(main, files) && Settled(main, "includes") && Settled(main, "bridges")
    requires !Loaded(main, files, "bridges").value.Other?
    ensures Top(main).Some? && Same(Pairs(main, "bridges"), At(Top(main).value, "bridges"))
    ensures forall name :: name in Entries(At(Top(main).value, "bridges")) ==>
      InPy(Loaded(main, files, "bridges").value, name) == InPy(At(Top(main).value, "bridges"), name)
  {
    LoadedParts(main, files, "bridges");
    var frags := Fragments(IncludeNames(main), files).value;
    JoinAllKeeps(At(Top(main).value, "bridges"), Sections(frags, "bridges"));
    SameSection(main, "bridges");
  }

  lemma BridgeKept(main: Node, files: map<string, Node>, i: nat)
    requires Accepts(main, files) && Settled(main, "includes") && Settled(main, "bridges")
    requires !Loaded(main, files, "bridges").value.Other?
    requires i < |Pairs(main, "bridges")| && Pairs(main, "bridges")[i].0.Scalar?
    requires var p := Pairs(main, "bridges")[i];
      LastValue(Flat(Pairs(main, "bridges")), p.0.text) == Some(p.1)
    ensures var p := Pairs(main, "bridges")[i];
      InPy(Loaded(main, files, "bridges").value, p.0.text) == Some(p.1)
  {
    MainKept(main, files);
    KeptValue(Pairs(main, "bridges"), Pairs(main, "bridges")[i].0.text);
  }

  // ---- bridges in included files ----------------------------------------------------------------------------

  /** What a fragment adds is new to the base. */
  lemma {:induction false} NewToBase(base: Py, vs: seq<Py>, i: nat, name: string)
    requires JoinAll(base, vs).Some? && i < |vs| && name in Entries(vs[i])
    ensures name !in Entries(base)
    decreases |vs|
  {
    JoinAdds(base, vs[0], name);
    if i > 0 {
      NewToBase(Join(base, vs[0]).value, vs[1..], i - 1, name);
    }
  }

  /** The bridges of an included file, as the validator sees them. */
  function FragmentBridges(files: map<string, Node>, n: string): map<string, Node> {
    if n in files && Top(files[n]).Some? then Entries(At(Top(files[n]).value, "bridges")) else map[]
  }

  /** They are the sections merged. */
  lemma FragmentBridgesAt(main: Node, files: map<string, Node>, i: nat)
    requires Settled(main, "includes") && Loaded(main, files, "bridges").Some? && i < |IncludeNames(main)|
    ensures Fragments(IncludeNames(main), files).Some?
    ensures i < |Fragments(IncludeNames(main), files).value|
    ensures FragmentBridges(files, IncludeNames(main)[i]) ==
      Entries(Sections(Fragments(IncludeNames(main), files).value, "bridges")[i])
  {
    LoadedParts(main, files, "bridges");
    FragmentsExist(IncludeNames(main), files);
  }

  lemma NoMergeEntries(file: Node, key: string)
    requires Top(file).Some?
    ensures "<<" !in Entries(At(Top(file).value, key))
  {
    TopIs(file, key);
    KeptValue(PairsOf(LastValue(Flat(file.pairs), key)), "<<");
  }

  /** A bridge defined in an included file passes the merge and the checks, and is never loaded: no row of
      the daemon's has its name. */
  lemma IncludedBridgeNotLoaded(main: Node, files: map<string, Node>, n: string, id: string, row: Bridge)
    requires Accepts(main, files) && Settled(main, "includes") && Settled(main, "bridges")
    requires n in IncludeNames(main) && id in FragmentBridges(files, n)
    requires row in BridgeRows(Pairs(main, "bridges"))
    ensures id in Entries(Loaded(main, files, "bridges").value) && row.name != id
  {
    var i: nat :| i < |IncludeNames(main)| && IncludeNames(main)[i] == n;
    FragmentBridgesAt(main, files, i);
    LoadedParts(main, files, "bridges");
    var base := At(Top(main).value, "bridges");
    var vs := Sections(Fragments(IncludeNames(main), files).value, "bridges");
    NewToBase(base, vs, i, id);
    JoinAllTakes(base, vs, i, id);
    NotOther(base, vs, i);
    SameSection(main, "bridges");
    BridgeNamesAre(main, row.name);
    RowsHave(Pairs(main, "bridges"), row.name);
    NoMergeEntries(files[n], "bridges");
    if row.name == id {
      FoundIsKept(Pairs(main, "bridges"), id);
      KeptValue(Pairs(main, "bridges"), id);
    }
  }

  /** Something was merged into the base, so it is a dictionary or nothing. */
  lemma {:induction false} NotOther(base: Py, vs: seq<Py>, i: nat)
    requires JoinAll(base, vs).Some? && i < |vs| && vs[i] != Null
    ensures !base.Other?
    decreases |vs|
  {
    if i > 0 {
      NotOther(Join(base, vs[0]).value, vs[1..], i - 1);
    }
  }

  /** Whether some included file defines a bridge. */
  predicate IncludesDefineBridges(main: Node, files: map<string, Node>) {
    exists n :: n in IncludeNames(main) && FragmentBridges(files, n) != map[]
  }

  /** The daemon loads exactly the bridges the validator accepted, by name, if and only if no included file
      defines any and the main file's section brings no names by merge keys; given that the bridges accepted
      are objects. */
  lemma LoadedBridges(main: Node, files: map<string, Node>)
    requires Accepts(main, files) && Settled(main, "includes") && Settled(main, "bridges")
    requires SchemaOk(Loaded(main, files, "bridges").value)
    ensures BridgeNames(main) == Entries(Loaded(main, files, "bridges").value).Keys
      <==> !IncludesDefineBridges(main, files) && NamesHarmless(Pairs(main, "bridges"))
  {
    if IncludesDefineBridges(main, files) {
      var n :| n in IncludeNames(main) && FragmentBridges(files, n) != map[];
      var id :| id in FragmentBridges(files, n);
      SomeIncluded(main, files, n, id);
    } else {
      MainNames(main, files);
      OnlyMain(main, files);
    }
  }

  lemma SomeIncluded(main: Node, files: map<string, Node>, n: string, id: string)
    requires Accepts(main, files) && Settled(main, "includes") && Settled(main, "bridges")
    requires n in IncludeNames(main) && id in FragmentBridges(files, n)
    ensures id in Entries(Loaded(main, files, "bridges").value) && id !in BridgeNames(main)
  {
    var i: nat :| i < |IncludeNames(main)| && IncludeNames(main)[i] == n;
    FragmentBridgesAt(main, files, i);
    LoadedParts(main, files, "bridges");
    var frags := Fragments(IncludeNames(main), files).value;
    JoinAllTakes(At(Top(main).value, "bridges"), Sections(frags, "bridges"), i, id);
    forall row | row in BridgeRows(Pairs(main, "bridges")) ensures row.name != id {
      IncludedBridgeNotLoaded(main, files, n, id, row);
    }
  }

  /** The names loaded are those the validator has from the main file, unless merge keys bring some. */
  lemma MainNames(main: Node, files: map<string, Node>)
    requires Accepts(main, files) && Settled(main, "includes") && Settled(main, "bridges")
    requires SchemaOk(Loaded(main, files, "bridges").value)
    ensures Top(main).Some?
    ensures BridgeNames(main) == Entries(At(Top(main).value, "bridges")).Keys <==>
      NamesHarmless(Pairs(main, "bridges"))
  {
    MainKept(main, files);
    var pairs, v := Pairs(main, "bridges"), At(Top(main).value, "bridges");
    forall name
      ensures name in BridgeNames(main) <==> Lookup(Rows(pairs), name).Some?
      ensures name in Entries(v) <==> HasKey(Flat(pairs), name)
      ensures HasKey(Flat(pairs), name) ==> LastValue(Flat(pairs), name).value.Mapping?
    {
      BridgeNamesAre(main, name);
      RowsHave(pairs, name);
      KeptValue(pairs, name);
    }
    MappingNames(pairs);
    SameKeys(main, v, pairs);
  }

  lemma SameKeys(main: Node, v: Py, pairs: seq<(Node, Node)>)
    requires forall name :: name in BridgeNames(main) <==> Lookup(Rows(pairs), name).Some?
    requires forall name :: name in Entries(v) <==> HasKey(Flat(pairs), name)
    ensures BridgeNames(main) == Entries(v).Keys <==> forall name :: SameName(pairs, name)
  {
    if forall name :: SameName(pairs, name) {
      forall name ensures name in BridgeNames(main) <==> name in Entries(v).Keys {
        assert SameName(pairs, name);
      }
    }
    if BridgeNames(main) == Entries(v).Keys {
      forall name ensures SameName(pairs, name) {
        assert name in BridgeNames(main) <==> name in Entries(v).Keys;
      }
    }
  }

  lemma OnlyMain(main: Node, files: map<string, Node>)
    requires Accepts(main, files) && Settled(main, "includes") && !IncludesDefineBridges(main, files)
    ensures Top(main).Some?
    ensures Entries(Loaded(main, files, "bridges").value).Keys == Entries(At(Top(main).value, "bridges")).Keys
  {
    LoadedParts(main, files, "bridges");
    var base := At(Top(main).value, "bridges");
    var vs := Sections(Fragments(IncludeNames(main), files).value, "bridges");
    FragmentsExist(IncludeNames(main), files);
    DisjointUnion(base, vs);
    forall i | 0 <= i < |vs| ensures Entries(vs[i]) == map[] {
      FragmentBridgesAt(main, files, i);
      assert IncludeNames(main)[i] in IncludeNames(main);
    }
  }
}
