/** The validator and the daemon, which merge configurations independently: where they agree; and that the
    order of the includes does not matter. */
module ConfigAgreement {
  import opened Basics
  import opened Yaml
  import opened ConfigValidator
  import opened ConfigLoader

  // ---- one mapping ----------------------------------------------------------------------------------------

  predicate DistinctKeys(pairs: seq<(Node, Node)>) {
    forall i, j :: 0 <= i < j < |pairs| ==> pairs[i].0 != pairs[j].0
  }

  /** The value of the last pair with the key. */
  function LastValue(pairs: seq<(Node, Node)>, key: string): Option<Node> {
    if pairs == [] then None
    else
      var n := |pairs| - 1;
      if pairs[n].0 == Scalar(key) then Some(pairs[n].1) else LastValue(pairs[..n], key)
  }

  predicate HasKey(pairs: seq<(Node, Node)>, key: string) {
    LastValue(pairs, key).Some?
  }

  /** The pair the daemon's lookup would stop at: the first usable one with its key. */
  predicate IsFirst(pairs: seq<(Node, Node)>, i: nat) {
    i < |pairs| && IsEntry(pairs[i]) && forall h :: 0 <= h < i && IsEntry(pairs[h]) ==> pairs[h].0 != pairs[i].0
  }

  /** The last pair with its key. */
  predicate IsLast(pairs: seq<(Node, Node)>, j: nat) {
    j < |pairs| && forall h :: j < h < |pairs| ==> pairs[h].0 != pairs[j].0
  }

  /** The daemon would add a row of that name. */
  predicate HasEntry(pairs: seq<(Node, Node)>, name: string) {
    exists h :: 0 <= h < |pairs| && IsEntry(pairs[h]) && pairs[h].0 == Scalar(name)
  }

  /** Repeated keys, if any, are harmless: first and last value are the same. */
  predicate FirstIsLast(pairs: seq<(Node, Node)>) {
    forall i, j ::
      (0 <= i < |pairs| && 0 <= j < |pairs| && IsFirst(pairs, i) && IsLast(pairs, j) && pairs[i].0 == pairs[j].0)
      ==> pairs[i].1 == pairs[j].1
  }

  /** Merge keys, if any, bring no names: what they merge are keys of the mapping itself, and none of them has
      a mapping as its value, which the daemon would take for an entry. */
  predicate NamesHarmless(pairs: seq<(Node, Node)>) {
    !HasEntry(pairs, "<<")
    && forall p :: p in Inherited(pairs) && p.0.Scalar? ==> HasKey(pairs, p.0.text)
  }

  predicate Harmless(pairs: seq<(Node, Node)>) {
    NamesHarmless(pairs) && FirstIsLast(pairs)
  }

  /** The value of `name` in a merged section. */
  function InPy(v: Py, name: string): Option<Node> {
    if name in Entries(v) then Some(Entries(v)[name]) else None
  }

  lemma {:induction false} LastValueIsKept(pairs: seq<(Node, Node)>, key: string)
    ensures LastValue(pairs, key) == InPy(Dict(LastWins(pairs)), key)
    decreases |pairs|
  {
    if pairs != [] {
      LastValueIsKept(pairs[..|pairs| - 1], key);
    }
  }

  lemma {:induction false} LastValueConcat(ps: seq<(Node, Node)>, qs: seq<(Node, Node)>, key: string)
    ensures LastValue(ps + qs, key) == if HasKey(qs, key) then LastValue(qs, key) else LastValue(ps, key)
    decreases |qs|
  {
    if qs == [] {
      assert ps + qs == ps;
    } else {
      assert (ps + qs)[..|ps + qs| - 1] == ps + qs[..|qs| - 1];
      LastValueConcat(ps, qs[..|qs| - 1], key);
    }
  }

  lemma LastValueOne(p: (Node, Node), key: string)
    ensures LastValue([p], key) == if p.0 == Scalar(key) then Some(p.1) else None
  {
    assert [p][..0] == [];
  }

  lemma {:induction false} OwnValue(pairs: seq<(Node, Node)>, key: string)
    ensures LastValue(Own(pairs), key) == if key == "<<" then None else LastValue(pairs, key)
    decreases |pairs|
  {
    if pairs != [] {
      var n := |pairs| - 1;
      OwnValue(pairs[..n], key);
      LastValueConcat(Own(pairs[..n]), if IsMerge(pairs[n]) then [] else [pairs[n]], key);
      LastValueOne(pairs[n], key);
    }
  }

  lemma {:induction false} NoMergeInherited(pairs: seq<(Node, Node)>)
    ensures !HasKey(Inherited(pairs), "<<")
    decreases pairs, 0
  {
    if pairs != [] {
      var n := |pairs| - 1;
      var p := pairs[n];
      assert p.1 < p;
      NoMergeInherited(pairs[..n]);
      NoMergeValue(p.1);
      LastValueConcat(Inherited(pairs[..n]), if IsMerge(p) then FlatValue(p.1) else [], "<<");
    }
  }

  lemma {:induction false} NoMergeValue(v: Node)
    ensures !HasKey(FlatValue(v), "<<")
    decreases v
  {
    match v
    case Mapping(pairs) => NoMergeFlat(pairs);
    case Sequence(items) => NoMergeItems(items);
    case _ =>
  }

  lemma {:induction false} NoMergeItems(items: seq<Node>)
    ensures !HasKey(FlatItems(items), "<<")
    decreases items
  {
    if items != [] {
      NoMergeItems(items[1..]);
      if items[0].Mapping? {
        NoMergeFlat(items[0].pairs);
      }
      LastValueConcat(FlatItems(items[1..]), if items[0].Mapping? then Flat(items[0].pairs) else [], "<<");
    }
  }

  lemma {:induction false} NoMergeFlat(pairs: seq<(Node, Node)>)
    ensures !HasKey(Flat(pairs), "<<")
    decreases pairs, 1
  {
    NoMergeInherited(pairs);
    OwnValue(pairs, "<<");
    LastValueConcat(Inherited(pairs), Own(pairs), "<<");
  }

  /** What the validator keeps under a key: its last value in the mapping itself, or else what is merged. */
  lemma KeptValue(pairs: seq<(Node, Node)>, key: string)
    ensures InPy(Dict(LastWins(Flat(pairs))), key) == LastValue(Flat(pairs), key)
    ensures LastValue(Flat(pairs), key) ==
      if key == "<<" then None
      else if HasKey(pairs, key) then LastValue(pairs, key) else LastValue(Inherited(pairs), key)
  {
    LastValueIsKept(Flat(pairs), key);
    OwnValue(pairs, key);
    LastValueConcat(Inherited(pairs), Own(pairs), key);
    if key == "<<" {
      NoMergeInherited(pairs);
    }
  }

  /** Of the mappings in a merge key's list, the first that has a key gives it. */
  lemma {:induction false} FirstItemWins(items: seq<Node>, i: nat, key: string)
    requires i < |items| && items[i].Mapping? && HasKey(Flat(items[i].pairs), key)
    requires forall h :: 0 <= h < i && items[h].Mapping? ==> !HasKey(Flat(items[h].pairs), key)
    ensures LastValue(FlatItems(items), key) == LastValue(Flat(items[i].pairs), key)
    decreases i
  {
    LastValueConcat(FlatItems(items[1..]), if items[0].Mapping? then Flat(items[0].pairs) else [], key);
    if i > 0 {
      FirstItemWins(items[1..], i - 1, key);
    }
  }

  lemma {:induction false} LookupConcat(t: seq<Conn>, u: seq<Conn>, name: string)
    ensures Lookup(t + u, name) == if Lookup(t, name).Some? then Lookup(t, name) else Lookup(u, name)
    decreases |t|
  {
    if t == [] {
      assert t + u == u;
    } else {
      assert (t + u)[1..] == t[1..] + u;
      LookupConcat(t[1..], u, name);
    }
  }

  /** One more pair, for the daemon. */
  lemma RowsStep(pairs: seq<(Node, Node)>, name: string)
    requires pairs != []
    ensures var n := |pairs| - 1;
      Lookup(Rows(pairs), name) ==
        if Lookup(Rows(pairs[..n]), name).Some? then Lookup(Rows(pairs[..n]), name)
        else if IsEntry(pairs[n]) && pairs[n].0.text == name then Some(pairs[n].1) else None
  {
    var n := |pairs| - 1;
    LookupConcat(Rows(pairs[..n]), if IsEntry(pairs[n]) then [Conn(pairs[n].0.text, pairs[n].1)] else [], name);
  }

  /** A row's name is a key; and where the last value of a key is usable, the daemon finds some row. */
  lemma {:induction false} SameNames(pairs: seq<(Node, Node)>, name: string)
    ensures Lookup(Rows(pairs), name).Some? ==> HasKey(pairs, name)
    ensures HasKey(pairs, name) && LastValue(pairs, name).value.Mapping? ==> Lookup(Rows(pairs), name).Some?
    decreases |pairs|
  {
    if pairs != [] {
      RowsStep(pairs, name);
      SameNames(pairs[..|pairs| - 1], name);
    }
  }

  /** A row is a pair whose key is a scalar and whose value is a mapping. */
  lemma {:induction false} RowsAreMappings(pairs: seq<(Node, Node)>, row: Conn)
    requires row in Rows(pairs)
    ensures row.node.Mapping? && (Scalar(row.name), row.node) in pairs
    decreases |pairs|
  {
    var n := |pairs| - 1;
    if row in Rows(pairs[..n]) {
      RowsAreMappings(pairs[..n], row);
      assert (Scalar(row.name), row.node) in pairs[..n];
    } else {
      assert pairs[n] in pairs;
    }
  }

  lemma {:induction false} FirstFound(pairs: seq<(Node, Node)>, i: nat)
    requires IsFirst(pairs, i)
    ensures Lookup(Rows(pairs), pairs[i].0.text) == Some(pairs[i].1)
    decreases |pairs|
  {
    var n := |pairs| - 1;
    RowsStep(pairs, pairs[i].0.text);
    if i < n {
      FirstFound(pairs[..n], i);
    } else {
      NoRow(pairs[..n], pairs[i].0.text);
    }
  }

  lemma {:induction false} NoRow(pairs: seq<(Node, Node)>, name: string)
    requires forall h :: 0 <= h < |pairs| && IsEntry(pairs[h]) ==> pairs[h].0 != Scalar(name)
    ensures Lookup(Rows(pairs), name) == None
    decreases |pairs|
  {
    if pairs != [] {
      RowsStep(pairs, name);
      NoRow(pairs[..|pairs| - 1], name);
    }
  }

  lemma {:induction false} LastKept(pairs: seq<(Node, Node)>, j: nat)
    requires IsLast(pairs, j) && pairs[j].0.Scalar?
    ensures LastValue(pairs, pairs[j].0.text) == Some(pairs[j].1)
    decreases |pairs|
  {
    var n := |pairs| - 1;
    if j < n {
      LastKept(pairs[..n], j);
    }
  }

  /** Where a found name stands. */
  lemma {:induction false} WhereFirst(pairs: seq<(Node, Node)>, name: string) returns (i: nat)
    requires Lookup(Rows(pairs), name).Some?
    ensures IsFirst(pairs, i) && pairs[i].0 == Scalar(name)
    decreases |pairs|
  {
    var n := |pairs| - 1;
    RowsStep(pairs, name);
    if Lookup(Rows(pairs[..n]), name).Some? {
      i := WhereFirst(pairs[..n], name);
    } else {
      i := n;
      if h :| 0 <= h < n && IsEntry(pairs[h]) && pairs[h].0 == Scalar(name) {
        RowThere(pairs[..n], h);
      }
    }
  }

  lemma {:induction false} RowThere(pairs: seq<(Node, Node)>, h: nat)
    requires h < |pairs| && IsEntry(pairs[h])
    ensures Lookup(Rows(pairs), pairs[h].0.text).Some?
    decreases |pairs|
  {
    RowsStep(pairs, pairs[h].0.text);
    if h < |pairs| - 1 {
      RowThere(pairs[..|pairs| - 1], h);
    }
  }

  lemma {:induction false} WhereLast(pairs: seq<(Node, Node)>, name: string) returns (j: nat)
    requires HasKey(pairs, name)
    ensures IsLast(pairs, j) && pairs[j].0 == Scalar(name)
    decreases |pairs|
  {
    var n := |pairs| - 1;
    if pairs[n].0 == Scalar(name) {
      j := n;
    } else {
      j := WhereLast(pairs[..n], name);
    }
  }

  lemma {:induction false} KeyHasLast(pairs: seq<(Node, Node)>, j: nat)
    requires j < |pairs| && pairs[j].0.Scalar?
    ensures HasKey(pairs, pairs[j].0.text)
    decreases |pairs|
  {
    var n := |pairs| - 1;
    if j < n {
      KeyHasLast(pairs[..n], j);
    }
  }

  lemma RowsHave(pairs: seq<(Node, Node)>, name: string)
    ensures Lookup(Rows(pairs), name).Some? <==> HasEntry(pairs, name)
  {
    if Lookup(Rows(pairs), name).Some? {
      var i := WhereFirst(pairs, name);
      assert IsEntry(pairs[i]);
    } else if HasEntry(pairs, name) {
      var h :| 0 <= h < |pairs| && IsEntry(pairs[h]) && pairs[h].0 == Scalar(name);
      RowThere(pairs, h);
    }
  }

  /** What the validator keeps of a mapping are mappings. */
  ghost predicate KeepsMappings(pairs: seq<(Node, Node)>) {
    forall name :: HasKey(Flat(pairs), name) ==> LastValue(Flat(pairs), name).value.Mapping?
  }

  /** The daemon finds a name among a mapping's rows if and only if the validator keeps it. */
  predicate SameName(pairs: seq<(Node, Node)>, name: string) {
    Lookup(Rows(pairs), name).Some? <==> HasKey(Flat(pairs), name)
  }

  /** What the daemon finds among a mapping's rows is what the validator keeps. */
  predicate Agrees(pairs: seq<(Node, Node)>, name: string) {
    Lookup(Rows(pairs), name) == LastValue(Flat(pairs), name)
  }

  /** Other than `<<`, the daemon finds no names the validator does not keep. */
  lemma FoundIsKept(pairs: seq<(Node, Node)>, name: string)
    requires Lookup(Rows(pairs), name).Some? && name != "<<"
    ensures HasKey(Flat(pairs), name)
  {
    SameNames(pairs, name);
    KeptValue(pairs, name);
  }

  /** Within one mapping the two know the same names exactly when merge keys are harmless. */
  lemma MappingNames(pairs: seq<(Node, Node)>)
    requires KeepsMappings(pairs)
    ensures NamesHarmless(pairs) <==> forall name :: SameName(pairs, name)
  {
    RowsHave(pairs, "<<");
    KeptValue(pairs, "<<");
    NoMergeInherited(pairs);
    forall name | name != "<<"
      ensures SameName(pairs, name) <==> (HasKey(Inherited(pairs), name) ==> HasKey(pairs, name))
    {
      SameNames(pairs, name);
      KeptValue(pairs, name);
    }
    if forall name :: SameName(pairs, name) {
      assert SameName(pairs, "<<");
      forall p | p in Inherited(pairs) && p.0.Scalar? ensures HasKey(pairs, p.0.text) {
        var j: nat :| j < |Inherited(pairs)| && Inherited(pairs)[j] == p;
        KeyHasLast(Inherited(pairs), j);
        assert SameName(pairs, p.0.text);
      }
    } else if NamesHarmless(pairs) {
      var name :| !SameName(pairs, name);
      if name != "<<" {
        var j := WhereLast(Inherited(pairs), name);
      }
    }
  }

  /** And on every name's value exactly when repeated keys are harmless too. */
  lemma MappingAgrees(pairs: seq<(Node, Node)>)
    requires KeepsMappings(pairs)
    ensures Harmless(pairs) <==> forall name :: Agrees(pairs, name)
  {
    MappingNames(pairs);
    if Harmless(pairs) {
      forall name ensures Agrees(pairs, name) {
        HarmlessAgrees(pairs, name);
      }
    } else if NamesHarmless(pairs) {
      var i: nat, j: nat :|
        IsFirst(pairs, i) && IsLast(pairs, j) && pairs[i].0 == pairs[j].0 && pairs[i].1 != pairs[j].1;
      FirstFound(pairs, i);
      LastKept(pairs, j);
      KeptValue(pairs, pairs[i].0.text);
      assert !Agrees(pairs, pairs[i].0.text);
    } else {
      var name :| !SameName(pairs, name);
      assert !Agrees(pairs, name);
    }
  }

  lemma HarmlessAgrees(pairs: seq<(Node, Node)>, name: string)
    requires FirstIsLast(pairs) && SameName(pairs, name)
    ensures Agrees(pairs, name)
  {
    if Lookup(Rows(pairs), name).Some? {
      KeptValue(pairs, name);
      SameNames(pairs, name);
      var i := WhereFirst(pairs, name);
      var j := WhereLast(pairs, name);
      FirstFound(pairs, i);
      LastKept(pairs, j);
    }
  }

  lemma DistinctIsHarmless(pairs: seq<(Node, Node)>)
    requires DistinctKeys(pairs) && !HasKey(pairs, "<<")
    ensures Harmless(pairs)
  {
    NothingInherited(pairs);
    if h :| 0 <= h < |pairs| && IsEntry(pairs[h]) && pairs[h].0 == Scalar("<<") {
      KeyHasLast(pairs, h);
    }
  }

  lemma {:induction false} NothingInherited(pairs: seq<(Node, Node)>)
    requires !HasKey(pairs, "<<")
    ensures Inherited(pairs) == []
    decreases |pairs|
  {
    if pairs != [] {
      NothingInherited(pairs[..|pairs| - 1]);
    }
  }

  // ---- several files ----------------------------------------------------------------------------------------

  /** The pairs the daemon reads and the value the validator merges come from the same section. */
  predicate Same(pairs: seq<(Node, Node)>, v: Py) {
    !v.Other? && Entries(v) == LastWins(Flat(pairs))
  }

  predicate AllSame(pss: seq<seq<(Node, Node)>>, vs: seq<Py>) {
    |pss| == |vs| && forall i :: 0 <= i < |vs| ==> Same(pss[i], vs[i])
  }

  function RowsAll(pss: seq<seq<(Node, Node)>>): seq<Conn> {
    if pss == [] then [] else Rows(pss[0]) + RowsAll(pss[1..])
  }

  /** Joining a section adds the overlay's entries, whose names are all new. */
  lemma JoinAdds(base: Py, v: Py, name: string)
    requires Join(base, v).Some?
    ensures name in Entries(base) ==> name !in Entries(v)
    ensures InPy(Join(base, v).value, name) == if name in Entries(base) then InPy(base, name) else InPy(v, name)
  {
    if v != Null && name in Entries(base) {
      assert name !in Entries(base).Keys * v.entries.Keys;
    }
  }

  /** Merging keeps what is there and takes every fragment's entries as they are. */
  lemma {:induction false} JoinAllKeeps(base: Py, vs: seq<Py>)
    requires JoinAll(base, vs).Some?
    ensures forall name :: name in Entries(base) ==>
      name in Entries(JoinAll(base, vs).value) && Entries(JoinAll(base, vs).value)[name] == Entries(base)[name]
    ensures base.Other? ==> JoinAll(base, vs).value.Other?
    decreases |vs|
  {
    if vs != [] {
      JoinAllKeeps(Join(base, vs[0]).value, vs[1..]);
      forall name | name in Entries(base)
        ensures name in Entries(Join(base, vs[0]).value)
                && Entries(Join(base, vs[0]).value)[name] == Entries(base)[name]
      {
        JoinAdds(base, vs[0], name);
      }
    }
  }

  predicate AgreesIn(pss: seq<seq<(Node, Node)>>, vs: seq<Py>, name: string)
    requires |pss| == |vs|
  {
    forall i :: 0 <= i < |pss| ==> Lookup(Rows(pss[i]), name) == InPy(vs[i], name)
  }

  predicate NamedIn(pss: seq<seq<(Node, Node)>>, vs: seq<Py>, name: string)
    requires |pss| == |vs|
  {
    forall i :: 0 <= i < |pss| ==> (Lookup(Rows(pss[i]), name).Some? <==> name in Entries(vs[i]))
  }

  /** What the daemon finds in a file, the validator has from that file. */
  predicate FoundIn(pss: seq<seq<(Node, Node)>>, vs: seq<Py>, name: string)
    requires |pss| == |vs|
  {
    forall i :: 0 <= i < |pss| && Lookup(Rows(pss[i]), name).Some? ==> name in Entries(vs[i])
  }

  /** The two agree about a name, or on whether it exists, exactly when they do in every single file. */
  lemma {:induction false} TablesAgree(t: seq<Conn>, base: Py, pss: seq<seq<(Node, Node)>>, vs: seq<Py>, name: string)
    requires |pss| == |vs| && JoinAll(base, vs).Some? && FoundIn(pss, vs, name)
    requires Lookup(t, name).Some? ==> name in Entries(base)
    ensures var r := JoinAll(base, vs).value; var u := Lookup(t + RowsAll(pss), name);
      && ((u.Some? <==> name in Entries(r)) <==>
          (Lookup(t, name).Some? <==> name in Entries(base)) && NamedIn(pss, vs, name))
      && (u == InPy(r, name) <==> Lookup(t, name) == InPy(base, name) && AgreesIn(pss, vs, name))
    decreases |vs|
  {
    if vs == [] {
      assert t + RowsAll(pss) == t;
    } else {
      var base', t' := Join(base, vs[0]).value, t + Rows(pss[0]);
      ConcatAssoc(t, Rows(pss[0]), RowsAll(pss[1..]));
      OneFile(t, base, pss[0], vs[0], name);
      AgreesCons(pss, vs, name);
      TablesAgree(t', base', pss[1..], vs[1..], name);
    }
  }

  lemma AgreesCons(pss: seq<seq<(Node, Node)>>, vs: seq<Py>, name: string)
    requires |pss| == |vs| > 0
    ensures AgreesIn(pss, vs, name) <==>
      Lookup(Rows(pss[0]), name) == InPy(vs[0], name) && AgreesIn(pss[1..], vs[1..], name)
    ensures NamedIn(pss, vs, name) <==>
      (Lookup(Rows(pss[0]), name).Some? <==> name in Entries(vs[0])) && NamedIn(pss[1..], vs[1..], name)
    ensures FoundIn(pss, vs, name) ==> FoundIn(pss[1..], vs[1..], name)
  {
    assert forall i :: 0 <= i < |pss| - 1 ==> pss[1..][i] == pss[i + 1] && vs[1..][i] == vs[i + 1];
    assert forall i :: 0 < i < |pss| ==> pss[i] == pss[1..][i - 1] && vs[i] == vs[1..][i - 1];
  }

  lemma OneFile(t: seq<Conn>, base: Py, pairs: seq<(Node, Node)>, v: Py, name: string)
    requires Join(base, v).Some?
    requires Lookup(Rows(pairs), name).Some? ==> name in Entries(v)
    requires Lookup(t, name).Some? ==> name in Entries(base)
    ensures var r := Join(base, v).value; var u := Lookup(t + Rows(pairs), name);
      && (u.Some? ==> name in Entries(r))
      && ((u.Some? <==> name in Entries(r)) <==>
          (Lookup(t, name).Some? <==> name in Entries(base)) &&
          (Lookup(Rows(pairs), name).Some? <==> name in Entries(v)))
      && (u == InPy(r, name) <==> Lookup(t, name) == InPy(base, name) && Lookup(Rows(pairs), name) == InPy(v, name))
  {
    LookupConcat(t, Rows(pairs), name);
    JoinAdds(base, v, name);
  }

  /** Some `connectors` section the daemon reads has a usable pair with that key. */
  predicate Defined(pss: seq<seq<(Node, Node)>>, name: string) {
    exists i :: 0 <= i < |pss| && HasEntry(pss[i], name)
  }

  lemma {:induction false} RowsAllHave(pss: seq<seq<(Node, Node)>>, name: string)
    ensures Lookup(RowsAll(pss), name).Some? <==> Defined(pss, name)
    decreases |pss|
  {
    if pss != [] {
      LookupConcat(Rows(pss[0]), RowsAll(pss[1..]), name);
      RowsHave(pss[0], name);
      RowsAllHave(pss[1..], name);
      DefinedCons(pss, name);
    }
  }

  lemma DefinedCons(pss: seq<seq<(Node, Node)>>, name: string)
    requires pss != []
    ensures Defined(pss, name) <==> HasEntry(pss[0], name) || Defined(pss[1..], name)
  {
    assert forall i :: 0 < i < |pss| ==> pss[i] == pss[1..][i - 1];
    if Defined(pss[1..], name) {
      var i :| 0 <= i < |pss[1..]| && HasEntry(pss[1..][i], name);
      assert HasEntry(pss[i + 1], name);
    }
  }

  /** No merged section has the key `<<`. */
  lemma {:induction false} NeverMerged(base: Py, vs: seq<Py>)
    requires JoinAll(base, vs).Some? && "<<" !in Entries(base)
    requires forall i :: 0 <= i < |vs| ==> "<<" !in Entries(vs[i])
    ensures "<<" !in Entries(JoinAll(base, vs).value)
    decreases |vs|
  {
    if vs != [] {
      JoinAdds(base, vs[0], "<<");
      NeverMerged(Join(base, vs[0]).value, vs[1..]);
    }
  }

  /** Every fragment's entries end up in the merge. */
  lemma {:induction false} JoinAllTakes(base: Py, vs: seq<Py>, i: nat, name: string)
    requires JoinAll(base, vs).Some? && i < |vs| && name in Entries(vs[i])
    ensures InPy(JoinAll(base, vs).value, name) == InPy(vs[i], name)
    decreases |vs|
  {
    var base' := Join(base, vs[0]).value;
    if i == 0 {
      JoinAdds(base, vs[0], name);
      JoinAllKeeps(base', vs[1..]);
    } else {
      JoinAllTakes(base', vs[1..], i - 1, name);
    }
  }

  predicate AllHarmless(pss: seq<seq<(Node, Node)>>) {
    forall i :: 0 <= i < |pss| ==> Harmless(pss[i])
  }

  predicate AllNamesHarmless(pss: seq<seq<(Node, Node)>>) {
    forall i :: 0 <= i < |pss| ==> NamesHarmless(pss[i])
  }

  lemma FileAgrees(pairs: seq<(Node, Node)>, v: Py)
    requires Same(pairs, v) && forall name :: name in Entries(v) ==> Entries(v)[name].Mapping?
    ensures NamesHarmless(pairs) <==> forall name :: Lookup(Rows(pairs), name).Some? <==> name in Entries(v)
    ensures Harmless(pairs) <==> forall name :: Lookup(Rows(pairs), name) == InPy(v, name)
    ensures "<<" !in Entries(v)
    ensures forall name :: name != "<<" && Lookup(Rows(pairs), name).Some? ==> name in Entries(v)
  {
    forall name ensures InPy(v, name) == LastValue(Flat(pairs), name) {
      KeptValue(pairs, name);
    }
    KeptValue(pairs, "<<");
    MappingNames(pairs);
    MappingAgrees(pairs);
    assert forall name :: Agrees(pairs, name) <==> Lookup(Rows(pairs), name) == InPy(v, name);
    assert forall name :: SameName(pairs, name) <==> (Lookup(Rows(pairs), name).Some? <==> name in Entries(v));
    forall name | name != "<<" && Lookup(Rows(pairs), name).Some? ensures name in Entries(v) {
      FoundIsKept(pairs, name);
    }
  }

  ghost predicate AllMappings(vs: seq<Py>) {
    forall i, name :: 0 <= i < |vs| && name in Entries(vs[i]) ==> Entries(vs[i])[name].Mapping?
  }

  lemma FilesAgree(pss: seq<seq<(Node, Node)>>, vs: seq<Py>)
    requires AllSame(pss, vs) && AllMappings(vs)
    ensures AllHarmless(pss) <==> forall name :: AgreesIn(pss, vs, name)
    ensures AllNamesHarmless(pss) <==> forall name :: NamedIn(pss, vs, name)
    ensures forall name :: name != "<<" ==> FoundIn(pss, vs, name)
    ensures forall i :: 0 <= i < |vs| ==> "<<" !in Entries(vs[i])
  {
    forall i | 0 <= i < |pss|
      ensures Harmless(pss[i]) <==> forall name :: Lookup(Rows(pss[i]), name) == InPy(vs[i], name)
      ensures NamesHarmless(pss[i]) <==> forall name :: Lookup(Rows(pss[i]), name).Some? <==> name in Entries(vs[i])
      ensures forall name :: name != "<<" && Lookup(Rows(pss[i]), name).Some? ==> name in Entries(vs[i])
      ensures "<<" !in Entries(vs[i])
    {
      FileAgrees(pss[i], vs[i]);
    }
    if forall name :: AgreesIn(pss, vs, name) {
      forall i | 0 <= i < |pss| ensures Harmless(pss[i]) {
        forall name ensures Lookup(Rows(pss[i]), name) == InPy(vs[i], name) {
          assert AgreesIn(pss, vs, name);
        }
      }
    }
    if forall name :: NamedIn(pss, vs, name) {
      forall i | 0 <= i < |pss| ensures NamesHarmless(pss[i]) {
        forall name ensures Lookup(Rows(pss[i]), name).Some? <==> name in Entries(vs[i]) {
          assert NamedIn(pss, vs, name);
        }
      }
    }
  }

  /** What schema validation guarantees of a merged section, as far as it matters here. */
  predicate SchemaOk(c: Py) {
    !c.Other? && forall name :: name in Entries(c) ==> Entries(c)[name].Mapping?
  }

  /** The same of one name. */
  lemma NameAgrees(pss: seq<seq<(Node, Node)>>, vs: seq<Py>, name: string)
    requires AllSame(pss, vs) && AllMappings(vs) && JoinAll(Null, vs).Some?
    ensures var c := JoinAll(Null, vs).value;
      && ((Lookup(RowsAll(pss), name).Some? <==> name in Entries(c)) <==> NamedIn(pss, vs, name))
      && (Lookup(RowsAll(pss), name) == InPy(c, name) <==> AgreesIn(pss, vs, name))
  {
    FilesAgree(pss, vs);
    if name != "<<" {
      assert [] + RowsAll(pss) == RowsAll(pss);
      TablesAgree([], Null, pss, vs, name);
    } else {
      NeverMerged(Null, vs);
      RowsAllHave(pss, "<<");
      forall i | 0 <= i < |pss| ensures Lookup(Rows(pss[i]), "<<").Some? <==> HasEntry(pss[i], "<<") {
        RowsHave(pss[i], "<<");
      }
    }
  }

  /** The table built from some sections and the merge of the same sections have the same names exactly when
      no section has a harmful merge key, and the same values for all names exactly when in addition no
      section repeats a key harmfully. */
  lemma SectionsAgree(pss: seq<seq<(Node, Node)>>, vs: seq<Py>)
    requires AllSame(pss, vs) && JoinAll(Null, vs).Some? && SchemaOk(JoinAll(Null, vs).value)
    ensures var c := JoinAll(Null, vs).value;
      && ((forall name :: Lookup(RowsAll(pss), name).Some? <==> name in Entries(c)) <==> AllNamesHarmless(pss))
      && ((forall name :: Lookup(RowsAll(pss), name) == InPy(c, name)) <==> AllHarmless(pss))
  {
    forall i, name | 0 <= i < |vs| && name in Entries(vs[i]) ensures Entries(vs[i])[name].Mapping? {
      JoinAllTakes(Null, vs, i, name);
    }
    var c := JoinAll(Null, vs).value;
    FilesAgree(pss, vs);
    forall name
      ensures (Lookup(RowsAll(pss), name).Some? <==> name in Entries(c)) <==> NamedIn(pss, vs, name)
      ensures Lookup(RowsAll(pss), name) == InPy(c, name) <==> AgreesIn(pss, vs, name)
    {
      NameAgrees(pss, vs, name);
    }
  }

  // ---- whole configurations ----------------------------------------------------------------------------------

  /** The daemon takes the first value of a key, the validator the last one after merging: here they are the
      same. */
  predicate Settled(n: Node, key: string) {
    n.Mapping? && First(n.pairs, key) == LastValue(Flat(n.pairs), key)
  }

  lemma {:induction false} FirstIsThere(pairs: seq<(Node, Node)>, key: string) returns (j: nat)
    requires First(pairs, key).Some?
    ensures j < |pairs| && pairs[j].0 == Scalar(key)
    decreases |pairs|
  {
    if pairs[0].0 == Scalar(key) {
      j := 0;
    } else {
      j := FirstIsThere(pairs[1..], key);
      j := j + 1;
    }
  }

  /** Without repeated keys and merge keys every key is settled. */
  lemma DistinctIsSettled(n: Node, key: string)
    requires n.Mapping? && DistinctKeys(n.pairs) && !HasKey(n.pairs, "<<")
    ensures Settled(n, key)
  {
    NothingInherited(n.pairs);
    KeptValue(n.pairs, key);
    if First(n.pairs, key).Some? {
      var j := FirstIsThere(n.pairs, key);
      KeyHasLast(n.pairs, j);
    }
    if HasKey(n.pairs, key) {
      var j := WhereLast(n.pairs, key);
      LastKept(n.pairs, j);
      FirstAt(n.pairs, j);
    }
  }

  /** What the validator sees under a top-level key. */
  lemma TopIs(file: Node, key: string)
    requires Top(file).Some?
    ensures file.Mapping?
    ensures At(Top(file).value, key) ==
      match LastValue(Flat(file.pairs), key) case Some(n) => PyVal(n) case None => Null
  {
    KeptValue(file.pairs, key);
  }

  /** Under a settled top-level key both sides see the same node. */
  lemma SameTop(file: Node, key: string)
    requires Settled(file, key) && Top(file).Some?
    ensures At(Top(file).value, key) == match Get(file, key) case Some(n) => PyVal(n) case None => Null
  {
    TopIs(file, key);
  }

  lemma SameSection(file: Node, key: string)
    requires Settled(file, key) && Top(file).Some? && !At(Top(file).value, key).Other?
    ensures Same(Pairs(file, key), At(Top(file).value, key))
  {
    SameTop(file, key);
  }

  /** A list of includes is refused exactly when some item is no text. */
  lemma {:induction false} TextsExactly(items: seq<Node>)
    ensures Texts(items).Some? <==> forall i :: 0 <= i < |items| ==> items[i].Scalar?
  {
    if items != [] {
      TextsExactly(items[1..]);
      assert forall i :: 0 < i < |items| ==> items[i] == items[1..][i - 1];
    }
  }

  lemma {:induction false} TextsAreNames(items: seq<Node>)
    requires Texts(items).Some?
    ensures Names(items) == Texts(items).value
  {
    if items != [] {
      TextsAreNames(items[1..]);
    }
  }

  lemma SameIncludes(main: Node)
    requires Settled(main, "includes") && Top(main).Some? && Includes(At(Top(main).value, "includes")).Some?
    ensures IncludeNames(main) == Includes(At(Top(main).value, "includes")).value
  {
    SameTop(main, "includes");
    var n := Get(main, "includes");
    if n.Some? && n.value.Sequence? {
      TextsAreNames(n.value.items);
    }
  }

  lemma {:induction false} FragmentsExist(names: seq<string>, files: map<string, Node>)
    requires Fragments(names, files).Some?
    ensures forall n :: n in names ==> n in files
    ensures |Fragments(names, files).value| == |names|
    ensures forall i :: 0 <= i < |names| ==>
      names[i] in files && Top(files[names[i]]) == Some(Fragments(names, files).value[i])
    decreases |names|
  {
    if names != [] {
      FragmentsExist(names[1..], files);
      assert names == [names[0]] + names[1..];
    }
  }

  /** The fragments can be read exactly when each is there, loads and is a dictionary. */
  lemma {:induction false} FragmentsExactly(names: seq<string>, files: map<string, Node>)
    ensures Fragments(names, files).Some? <==> forall n :: n in names ==> n in files && Top(files[n]).Some?
    decreases |names|
  {
    if names != [] {
      FragmentsExactly(names[1..], files);
      assert names == [names[0]] + names[1..];
    }
  }

  /** The connector sections of the main file and of the included files. */
  function Sources(main: Node, files: map<string, Node>): seq<seq<(Node, Node)>>
  {
    [Pairs(main, "connectors")] + SectionPairs(IncludeNames(main), files)
  }

  function SectionPairs(names: seq<string>, files: map<string, Node>): seq<seq<(Node, Node)>> {
    seq(|names|, i requires 0 <= i < |names| =>
      if names[i] in files then Pairs(files[names[i]], "connectors") else [])
  }

  lemma {:induction false} IncludedRowsAll(names: seq<string>, files: map<string, Node>)
    ensures IncludedRows(names, files) == RowsAll(SectionPairs(names, files))
    decreases |names|
  {
    if names != [] {
      IncludedRowsAll(names[1..], files);
      assert SectionPairs(names, files)[1..] == SectionPairs(names[1..], files);
    }
  }

  lemma TableIsSources(main: Node, files: map<string, Node>)
    ensures Table(main, files) == RowsAll(Sources(main, files))
  {
    IncludedRowsAll(IncludeNames(main), files);
    assert Sources(main, files)[1..] == SectionPairs(IncludeNames(main), files);
  }

  lemma {:induction false} NoOthers(base: Py, vs: seq<Py>)
    requires JoinAll(base, vs).Some? && !JoinAll(base, vs).value.Other?
    ensures !base.Other? && forall i :: 0 <= i < |vs| ==> !vs[i].Other?
    decreases |vs|
  {
    if vs != [] {
      NoOthers(Join(base, vs[0]).value, vs[1..]);
      assert forall i :: 0 < i < |vs| ==> vs[i] == vs[1..][i - 1];
    }
  }

  /** An accepted configuration in which the top-level keys behind the connectors are settled: `includes`
      in the main file, and `connectors` in every file read. */
  predicate Validated(main: Node, files: map<string, Node>) {
    && Accepts(main, files) && SchemaOk(Loaded(main, files, "connectors").value)
    && Settled(main, "includes") && Settled(main, "connectors")
    && forall n :: n in IncludeNames(main) && n in files ==> Settled(files[n], "connectors")
  }

  /** Starting from nothing and merging the main file's section first changes nothing. */
  lemma FromNothing(base: Py, vs: seq<Py>)
    requires !base.Other?
    ensures JoinAll(Null, [base] + vs) == JoinAll(base, vs)
  {
    assert ([base] + vs)[1..] == vs;
    if base.Dict? {
      assert Entries(Null) + base.entries == base.entries;
    }
  }

  /** The sections the validator merges, main file first. */
  lemma LoadedParts(main: Node, files: map<string, Node>, k: string)
    requires Settled(main, "includes") && Loaded(main, files, k).Some?
    ensures Top(main).Some? && Fragments(IncludeNames(main), files).Some?
    ensures Loaded(main, files, k) ==
      JoinAll(At(Top(main).value, k), Sections(Fragments(IncludeNames(main), files).value, k))
  {
    SameIncludes(main);
  }

  lemma FragmentSame(names: seq<string>, files: map<string, Node>, i: nat)
    requires Fragments(names, files).Some? && i < |names| && i < |Fragments(names, files).value|
    requires names[i] in files && Settled(files[names[i]], "connectors")
    requires Top(files[names[i]]) == Some(Fragments(names, files).value[i])
    requires !At(Fragments(names, files).value[i], "connectors").Other?
    ensures Same(SectionPairs(names, files)[i], At(Fragments(names, files).value[i], "connectors"))
  {
    SameSection(files[names[i]], "connectors");
  }

  lemma FragmentsSame(names: seq<string>, files: map<string, Node>, vs: seq<Py>)
    requires Fragments(names, files).Some? && vs == Sections(Fragments(names, files).value, "connectors")
    requires forall n :: n in names && n in files ==> Settled(files[n], "connectors")
    requires forall i :: 0 <= i < |vs| ==> !vs[i].Other?
    ensures AllSame(SectionPairs(names, files), vs)
  {
    FragmentsExist(names, files);
    forall i | 0 <= i < |vs| ensures Same(SectionPairs(names, files)[i], vs[i]) {
      assert names[i] in names && vs[i] == At(Fragments(names, files).value[i], "connectors");
      FragmentSame(names, files, i);
    }
  }

  /** They match those the daemon reads. */
  lemma SameViews(main: Node, files: map<string, Node>) returns (vs: seq<Py>)
    requires Validated(main, files)
    ensures AllSame(Sources(main, files), vs)
    ensures JoinAll(Null, vs) == Loaded(main, files, "connectors")
  {
    LoadedParts(main, files, "connectors");
    var names := IncludeNames(main);
    var base, rest := At(Top(main).value, "connectors"), Sections(Fragments(names, files).value, "connectors");
    NoOthers(base, rest);
    FromNothing(base, rest);
    SameSection(main, "connectors");
    FragmentsSame(names, files, rest);
    vs := [base] + rest;
    AllSameCons(Pairs(main, "connectors"), base, SectionPairs(names, files), rest);
  }

  lemma AllSameCons(ps: seq<(Node, Node)>, v: Py, pss: seq<seq<(Node, Node)>>, vs: seq<Py>)
    requires Same(ps, v) && AllSame(pss, vs)
    ensures AllSame([ps] + pss, [v] + vs)
  {
  }

  /** For an accepted configuration, the daemon's table has exactly the validator's names if and only if no
      section brings names by merge keys; and its first-match lookup returns the validator's connector for
      every name if and only if in addition no file repeats a connector key with a different first and last
      value. */
  lemma LookupsAgree(main: Node, files: map<string, Node>)
    requires Validated(main, files)
    ensures var c := Loaded(main, files, "connectors").value; var table := Table(main, files);
      && ((forall name :: Lookup(table, name).Some? <==> name in Entries(c)) <==>
          AllNamesHarmless(Sources(main, files)))
      && ((forall name :: Lookup(table, name) == InPy(c, name)) <==> AllHarmless(Sources(main, files)))
  {
    var vs := SameViews(main, files);
    TableIsSources(main, files);
    SectionsAgree(Sources(main, files), vs);
  }

  /** In particular when within a file no connector key is repeated and none is `<<`. */
  lemma DistinctKeysAgree(main: Node, files: map<string, Node>, name: string)
    requires Validated(main, files)
    requires forall i :: 0 <= i < |Sources(main, files)| ==>
      DistinctKeys(Sources(main, files)[i]) && !HasKey(Sources(main, files)[i], "<<")
    ensures Lookup(Table(main, files), name) == InPy(Loaded(main, files, "connectors").value, name)
  {
    LookupsAgree(main, files);
    forall i | 0 <= i < |Sources(main, files)| ensures Harmless(Sources(main, files)[i]) {
      DistinctIsHarmless(Sources(main, files)[i]);
    }
  }

  // ---- without settled sections ---------------------------------------------------------------------------------

  /** The pairs under the last occurrence of a top-level key, where the validator looks. */
  function LastPairs(file: Node, key: string): seq<(Node, Node)> {
    if file.Mapping? then PairsOf(LastValue(Flat(file.pairs), key)) else []
  }

  /** The includes the validator reads. */
  function LastIncludes(main: Node): seq<string> {
    if main.Mapping? then NamesOf(LastValue(Flat(main.pairs), "includes")) else []
  }

  predicate SomeFileHas(names: seq<string>, files: map<string, Node>, name: string) {
    exists n :: n in names && n in files && HasKey(Flat(LastPairs(files[n], "connectors")), name)
  }

  /** The last `connectors` section of the main file or of an included one has that key. */
  predicate DefinedLast(main: Node, files: map<string, Node>, name: string) {
    HasKey(Flat(LastPairs(main, "connectors")), name) || SomeFileHas(LastIncludes(main), files, name)
  }

  lemma EntriesLast(file: Node, name: string)
    requires Top(file).Some? || PyVal(file) == Null || file == Sequence([])
    ensures name in (if Top(file).Some? then Entries(At(Top(file).value, "connectors")) else map[])
      <==> HasKey(Flat(LastPairs(file, "connectors")), name)
  {
    if Top(file).Some? {
      TopIs(file, "connectors");
      KeptValue(LastPairs(file, "connectors"), name);
    }
  }

  lemma LastIncludesAre(main: Node)
    requires MainTop(main).Some? && Includes(At(MainTop(main).value, "includes")).Some?
    ensures LastIncludes(main) == Includes(At(MainTop(main).value, "includes")).value
  {
    if Top(main).Some? {
      TopIs(main, "includes");
      var n := LastValue(Flat(main.pairs), "includes");
      if n.Some? && n.value.Sequence? {
        TextsAreNames(n.value.items);
      }
    }
  }

  /** Some of the fragments has the name. */
  predicate SomeHas(vs: seq<Py>, name: string) {
    exists i :: 0 <= i < |vs| && name in Entries(vs[i])
  }

  lemma FragmentNames(names: seq<string>, files: map<string, Node>, name: string)
    requires Fragments(names, files).Some?
    ensures SomeHas(Sections(Fragments(names, files).value, "connectors"), name) <==> SomeFileHas(names, files, name)
  {
    FragmentsExist(names, files);
    var vs := Sections(Fragments(names, files).value, "connectors");
    forall i | 0 <= i < |vs|
      ensures name in Entries(vs[i]) <==> HasKey(Flat(LastPairs(files[names[i]], "connectors")), name)
    {
      EntriesLast(files[names[i]], name);
    }
    if SomeFileHas(names, files, name) {
      var n :| n in names && n in files && HasKey(Flat(LastPairs(files[n], "connectors")), name);
      var i :| 0 <= i < |names| && names[i] == n;
      assert name in Entries(vs[i]);
    }
    if SomeHas(vs, name) {
      var i :| 0 <= i < |vs| && name in Entries(vs[i]);
      assert names[i] in names;
    }
  }

  /** The merged names are those of the last sections. */
  lemma MergedNames(main: Node, files: map<string, Node>, name: string)
    requires Accepts(main, files)
    ensures name in Entries(Loaded(main, files, "connectors").value) <==> DefinedLast(main, files, name)
  {
    var names := LastIncludes(main);
    LastIncludesAre(main);
    FragmentNames(names, files, name);
    DisjointUnion(At(MainTop(main).value, "connectors"), Sections(Fragments(names, files).value, "connectors"));
    EntriesLast(main, name);
  }

  /** For any files the validator accepts, the two know the same names if and only if the usable keys of the
      first `connectors` sections are the merged keys of the last ones. */
  lemma NamesExactly(main: Node, files: map<string, Node>)
    requires Accepts(main, files)
    ensures
      (forall name :: Lookup(Table(main, files), name).Some? <==>
        name in Entries(Loaded(main, files, "connectors").value)) <==>
      (forall name :: Defined(Sources(main, files), name) <==> DefinedLast(main, files, name))
  {
    TableIsSources(main, files);
    forall name
      ensures Lookup(Table(main, files), name).Some? <==> Defined(Sources(main, files), name)
      ensures name in Entries(Loaded(main, files, "connectors").value) <==> DefinedLast(main, files, name)
    {
      RowsAllHave(Sources(main, files), name);
      MergedNames(main, files, name);
    }
  }

  // ---- what is read of a connector ------------------------------------------------------------------------------

  /** Kind and parameters, as the daemon reads them of the connector it finds and the validator of its own. */
  predicate SameReading(found: Option<Node>, kept: Option<Node>) {
    && found.Some? && kept.Some?
    && Get(found.value, "type") == InPy(PyVal(kept.value), "type")
    && Get(found.value, "params") == InPy(PyVal(kept.value), "params")
  }

  /** Where lookups agree, the two read the same kind and parameters of a connector if and only if these two
      keys are settled in it. */
  lemma ReadsAgree(main: Node, files: map<string, Node>, name: string)
    requires Validated(main, files) && AllHarmless(Sources(main, files))
    requires name in Entries(Loaded(main, files, "connectors").value)
    ensures var kept := InPy(Loaded(main, files, "connectors").value, name);
      SameReading(Lookup(Table(main, files), name), kept) <==>
        Settled(kept.value, "type") && Settled(kept.value, "params")
  {
    LookupsAgree(main, files);
    var c := Entries(Loaded(main, files, "connectors").value)[name];
    assert Lookup(Table(main, files), name) == Some(c);
    KeptValue(c.pairs, "type");
    KeptValue(c.pairs, "params");
  }

  // ---- the order of the includes --------------------------------------------------------------------------------

  function JoinTwo(base: Py, v: Py, w: Py): Option<Py> {
    var r := Join(base, v);
    if r.None? then None else Join(r.value, w)
  }

  predicate Disjoint(x: map<string, Node>, y: map<string, Node>) {
    forall k :: k in x ==> k !in y
  }

  lemma DisjointIs(x: map<string, Node>, y: map<string, Node>)
    ensures x.Keys * y.Keys == {} <==> Disjoint(x, y)
  {
    if x.Keys * y.Keys == {} {
      forall k | k in x ensures k !in y {
        assert k !in x.Keys * y.Keys;
      }
    }
  }

  /** Two fragments merge the same way in either order, or in neither. */
  lemma JoinSwap(base: Py, v: Py, w: Py)
    ensures JoinTwo(base, v, w) == JoinTwo(base, w, v)
  {
    if v.Dict? && w.Dict? && !base.Other? {
      var b, x, y := Entries(base), v.entries, w.entries;
      DisjointIs(b, x);
      DisjointIs(b, y);
      DisjointIs(b + x, y);
      DisjointIs(b + y, x);
      if Disjoint(x, y) {
        assert (b + x) + y == (b + y) + x;
      }
    }
  }

  lemma FoldedSwap(v: Py, n: string, m: string, names: seq<string>, files: map<string, Node>, k: string)
    ensures Folded(v, [n, m] + names, files, k) == Folded(v, [m, n] + names, files, k)
  {
    FoldedTwo(v, n, m, names, files, k);
    FoldedTwo(v, m, n, names, files, k);
    if n in files && m in files && Top(files[n]).Some? && Top(files[m]).Some? {
      JoinSwap(v, At(Top(files[n]).value, k), At(Top(files[m]).value, k));
    }
  }

  lemma FoldedTwo(v: Py, n: string, m: string, names: seq<string>, files: map<string, Node>, k: string)
    ensures Folded(v, [n, m] + names, files, k) ==
      if !(n in files && m in files && Top(files[n]).Some? && Top(files[m]).Some?) then None
      else
        var r := JoinTwo(v, At(Top(files[n]).value, k), At(Top(files[m]).value, k));
        if r.None? then None else Folded(r.value, names, files, k)
  {
    var all := [n, m] + names;
    assert all[1..] == [m] + names && all[1..][1..] == names;
    FoldStep(v, all, files, k);
    if n in files && Top(files[n]).Some? {
      var r := Join(v, At(Top(files[n]).value, k));
      if r.Some? {
        FoldStep(r.value, all[1..], files, k);
      }
    }
  }

  /** What holds of the later fragments for every base holds behind one more fragment. */
  lemma FoldedBehind(v: Py, n: string, names: seq<string>, others: seq<string>, files: map<string, Node>, k: string)
    requires forall r :: Folded(r, names, files, k) == Folded(r, others, files, k)
    ensures Folded(v, [n] + names, files, k) == Folded(v, [n] + others, files, k)
  {
    assert ([n] + names)[1..] == names && ([n] + others)[1..] == others;
    FoldStep(v, [n] + names, files, k);
    FoldStep(v, [n] + others, files, k);
  }

  function ToFront(names: seq<string>, i: nat): seq<string>
    requires i < |names|
  {
    [names[i]] + (names[..i] + names[i + 1..])
  }

  lemma {:induction false} FoldedToFront(v: Py, names: seq<string>, i: nat, files: map<string, Node>, k: string)
    requires i < |names|
    ensures Folded(v, names, files, k) == Folded(v, ToFront(names, i), files, k)
    decreases i
  {
    if i == 0 {
      assert ToFront(names, 0) == names;
    } else {
      var n, tail := names[0], names[1..];
      forall r ensures Folded(r, tail, files, k) == Folded(r, ToFront(tail, i - 1), files, k) {
        FoldedToFront(r, tail, i - 1, files, k);
      }
      FoldedBehind(v, n, tail, ToFront(tail, i - 1), files, k);
      var rest := tail[..i - 1] + tail[i..];
      assert names == [n] + tail;
      assert [n] + ToFront(tail, i - 1) == [n, names[i]] + rest;
      FoldedSwap(v, n, names[i], rest, files, k);
      assert [names[i], n] + rest == ToFront(names, i);
    }
  }

  lemma ToFrontPermutes(names: seq<string>, i: nat)
    requires i < |names|
    ensures multiset(ToFront(names, i)) == multiset(names)
  {
    assert names == names[..i] + ([names[i]] + names[i + 1..]);
  }

  lemma {:induction false} FoldedAnyOrder(
      v: Py, names: seq<string>, others: seq<string>, files: map<string, Node>, k: string)
    requires multiset(names) == multiset(others)
    ensures Folded(v, names, files, k) == Folded(v, others, files, k)
    decreases |names|
  {
    if names == [] {
      assert |multiset(others)| == 0;
    } else {
      var i := Whereabouts(names, others);
      var n, tail, rest := names[0], names[1..], ToFront(others, i)[1..];
      FoldedToFront(v, others, i, files, k);
      forall r ensures Folded(r, tail, files, k) == Folded(r, rest, files, k) {
        FoldedAnyOrder(r, tail, rest, files, k);
      }
      FoldedBehind(v, n, tail, rest, files, k);
    }
  }

  /** Where the first name stands among the others; without it the rest are the same names again. */
  lemma Whereabouts(names: seq<string>, others: seq<string>) returns (i: nat)
    requires names != [] && multiset(names) == multiset(others)
    ensures i < |others| && names == [names[0]] + names[1..]
    ensures var front := ToFront(others, i);
      front == [names[0]] + front[1..] && multiset(front[1..]) == multiset(names[1..])
  {
    assert names == [names[0]] + names[1..];
    assert names[0] in multiset(others);
    i :| i < |others| && others[i] == names[0];
    ToFrontPermutes(others, i);
    var front := ToFront(others, i);
    assert front == [names[0]] + front[1..];
    assert multiset(front[1..]) == multiset(front) - multiset{names[0]};
    assert multiset(names[1..]) == multiset(names) - multiset{names[0]};
  }

  /** Listing the includes in another order changes neither the merged connectors nor the merged bridges, nor
      whether the files are refused. */
  lemma IncludeOrder(main: Node, other: Node, files: map<string, Node>, k: string)
    requires MainTop(main).Some? && MainTop(other).Some? && IsSection(k)
    requires At(MainTop(main).value, k) == At(MainTop(other).value, k)
    requires
      var ns := Includes(At(MainTop(main).value, "includes"));
      var ms := Includes(At(MainTop(other).value, "includes"));
      ns.Some? && ms.Some? && multiset(ns.value) == multiset(ms.value)
    ensures Loaded(main, files, k) == Loaded(other, files, k)
  {
    FoldedAnyOrder(At(MainTop(main).value, k), Includes(At(MainTop(main).value, "includes")).value,
                   Includes(At(MainTop(other).value, "includes")).value, files, k);
  }

  function Total(vs: seq<Py>): nat {
    if vs == [] then 0 else |Entries(vs[0]).Keys| + Total(vs[1..])
  }

  /** The merged names are the disjoint union of the names merged: nothing else, nothing lost, none twice. */
  lemma {:induction false} DisjointUnion(base: Py, vs: seq<Py>)
    requires JoinAll(base, vs).Some?
    ensures var r := Entries(JoinAll(base, vs).value);
      && (forall name :: name in r <==> name in Entries(base) || exists i :: 0 <= i < |vs| && name in Entries(vs[i]))
      && |r.Keys| == |Entries(base).Keys| + Total(vs)
    decreases |vs|
  {
    if vs != [] {
      var base' := Join(base, vs[0]).value;
      DisjointUnion(base', vs[1..]);
      JoinNames(base, vs[0]);
      forall name
        ensures (exists i :: 0 <= i < |vs| && name in Entries(vs[i])) <==>
          name in Entries(vs[0]) || exists i :: 0 <= i < |vs[1..]| && name in Entries(vs[1..][i])
      {
        ExistsCons(vs, name);
      }
    }
  }

  lemma ExistsCons(vs: seq<Py>, name: string)
    requires vs != []
    ensures (exists i :: 0 <= i < |vs| && name in Entries(vs[i])) <==>
      name in Entries(vs[0]) || exists i :: 0 <= i < |vs[1..]| && name in Entries(vs[1..][i])
  {
    if i :| 0 <= i < |vs| && name in Entries(vs[i]) {
      if i > 0 {
        assert vs[1..][i - 1] == vs[i];
      }
    }
    if i :| 0 <= i < |vs[1..]| && name in Entries(vs[1..][i]) {
      assert vs[1..][i] == vs[i + 1];
    }
  }

  lemma JoinNames(base: Py, v: Py)
    requires Join(base, v).Some?
    ensures var r := Entries(Join(base, v).value);
      r.Keys == Entries(base).Keys + Entries(v).Keys && |r.Keys| == |Entries(base).Keys| + |Entries(v).Keys|
  {
    if v != Null {
      assert Entries(base).Keys !! v.entries.Keys;
      assert Entries(Join(base, v).value).Keys == Entries(base).Keys + v.entries.Keys;
    } else {
      assert Entries(v).Keys == {};
    }
  }
}
